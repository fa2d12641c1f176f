/**
 * The log line: the four style tokens of `_format`, the string building of
 * `_createLogMessage`, and the argument list handed to the console. Beside
 * them stands a reference layout, `Fields`: the ordered list of
 * (marker, content) pairs a line is made of, with a disabled field absent
 * from the list. The lemmas tie every rendering the logger produces to it.
 */
module Format {
  import opened Wrappers
  import opened Values
  import opened Levels
  import opened Palette
  import opened Config

  /** The escape character that opens an ANSI sequence. */
  const ESC: char := '\U{1B}'

  /** The object `_format` returns: a style token per segment of the line. */
  datatype Styles = Styles(timestamp: string, level: string, category: string, text: string)

  /** The tokens of an unstyled line: only the `": "` separator. */
  const PlainStyles: Styles := Styles("", "", "", ": ")

  /** The browser tokens: a `%c` placeholder before each segment. */
  const Placeholders: Styles := Styles("%c", "%c", "%c", ": %c")

  /** One ANSI "select graphic rendition" sequence: ESC, `[`, parameters without ESC, `m`. */
  predicate IsSgr(s: string) {
    |s| >= 3 && s[0] == ESC && s[1] == '[' && s[|s| - 1] == 'm' && ESC !in s[1..]
  }

  /** The Node tokens of `_format` with colours on: grey timestamp, level colour, bold category, reset. */
  function AnsiStyles(o: Options, levelColor: Value): (s: Styles)
    requires levelColor.Num?
    ensures s.text == [ESC] + "[0m: "
    ensures IsSgr(s.level)
    ensures s.timestamp != "" <==> Flag(o, ShowTimestamp)
    ensures s.timestamp != "" ==> IsSgr(s.timestamp)
  {
    var grey := ToText(ColorValue(Node, Grey));
    var timestampFormat := if Flag(o, ShowTimestamp) then [ESC] + "[3" + grey + "m" else "";
    var levelFormat := [ESC] + "[3" + ToText(levelColor) + ";22m";
    assert ESC !in grey && ESC !in ToText(levelColor);
    assert levelFormat[1..] == "[3" + ToText(levelColor) + ";22m";
    assert timestampFormat != "" ==> timestampFormat[1..] == "[3" + grey + "m";
    Styles(timestampFormat, levelFormat, [ESC] + "[3" + Setting(o, Color) + ";1m", [ESC] + "[0m: ")
  }

  /** A CSS declaration of a colour, as the browser console's `%c` expects. */
  predicate IsCssColor(s: string) {
    |s| >= 6 && s[..6] == "color:"
  }

  /** The browser tokens of `_format` with colours on: CSS colour declarations; the text token stays `": "`. */
  function CssStyles(o: Options, levelColor: Value): (s: Styles)
    ensures s.text == ": "
    ensures IsCssColor(s.level) && IsCssColor(s.category)
    ensures s.timestamp != "" <==> Flag(o, ShowTimestamp)
    ensures s.timestamp != "" ==> IsCssColor(s.timestamp)
  {
    Styles(if Flag(o, ShowTimestamp) then "color:" + ToText(ColorValue(Browser, Grey)) else "",
           "color:" + ToText(levelColor),
           "color:" + Setting(o, Color) + "; font-weight: bold",
           ": ")
  }

  /**
   * `_format(level, text)`: the style tokens for a line at `level`; the level
   * colour is `loglevelColors` at the level's position.
   */
  function FormatStyles(target: Target, o: Options, level: Level): (s: Styles)
    ensures !Flag(o, UseColors) ==> s == PlainStyles
    ensures s.timestamp != "" <==> Flag(o, UseColors) && Flag(o, ShowTimestamp)
    ensures s.text != ""
  {
    if !Flag(o, UseColors) then
      Styles("", "", "", ": ")
    else
      PositionOfName(level);
      var levelColor := LevelColors(target)[Position(Str(Name(level)))];
      match target
      case Node => AnsiStyles(o, levelColor)
      case Browser => CssStyles(o, levelColor)
  }

  /** `x || fallback` for an optional string argument: absent or empty gives the fallback. */
  function Or(x: Option<string>, fallback: string): string {
    if x.Some? && x.value != "" then x.value else fallback
  }

  /** The bracketed level with the alignment quirk: INFO and WARN get one extra space. */
  function LevelTag(level: Level): string {
    "[" + Name(level) + "]" + (if level == INFO || level == WARN then " " else "") + " "
  }

  /**
   * `_createLogMessage(level, text, ...formats)`, with the clock reading
   * `now` as a parameter. On the browser the format arguments are replaced
   * by `%c` placeholders (the timestamp one only when timestamps are shown).
   */
  function CreateLogMessage(target: Target, o: Options, category: string, level: Level, text: string,
                            now: string, timestampFormat: Option<string>, levelFormat: Option<string>,
                            categoryFormat: Option<string>, textFormat: Option<string>): string
  {
    var ts0, lv0, cat0, txt0 := Or(timestampFormat, ""), Or(levelFormat, ""), Or(categoryFormat, ""), Or(textFormat, ": ");
    var ts := if target == Browser && Flag(o, ShowTimestamp) then "%c" else ts0;
    var lv := if target == Browser then "%c" else lv0;
    var cat := if target == Browser then "%c" else cat0;
    var txt := if target == Browser then ": %c" else txt0;
    var stamped := ts + (if Flag(o, ShowTimestamp) then now + " " else "");
    var leveled := if Flag(o, ShowLevel) then stamped + (lv + LevelTag(level)) else stamped;
    leveled + (cat + category) + (txt + text)
  }

  /** The line written to the file: `_createLogMessage(level, text)` without formats. */
  function Unformatted(target: Target, o: Options, category: string, level: Level, text: string, now: string): string {
    CreateLogMessage(target, o, category, level, text, now, None, None, None, None)
  }

  /** The line given to the console: `_createLogMessage` with the tokens of `_format`. */
  function Formatted(target: Target, o: Options, category: string, level: Level, text: string, now: string): string {
    var s := FormatStyles(target, o, level);
    CreateLogMessage(target, o, category, level, text, now, Some(s.timestamp), Some(s.level), Some(s.category), Some(s.text))
  }

  // ---------------------------------------------------------------------
  // The reference layout

  /** One segment of a line: its style marker and its content. */
  datatype Field = Field(marker: string, content: string)

  /**
   * The segments of a line, in order timestamp, level, category, text; the
   * timestamp and level segments are present only when shown.
   */
  function Fields(showTimestamp: bool, showLevel: bool, level: Level, category: string, text: string,
                  now: string, m: Styles): seq<Field>
  {
    (if showTimestamp then [Field(m.timestamp, now + " ")] else [])
    + (if showLevel then [Field(m.level, LevelTag(level))] else [])
    + [Field(m.category, category), Field(m.text, text)]
  }

  /** The segments of a line under the options of a logger. */
  function LineFields(o: Options, level: Level, category: string, text: string, now: string, m: Styles): seq<Field> {
    Fields(Flag(o, ShowTimestamp), Flag(o, ShowLevel), level, category, text, now, m)
  }

  /** The string of a list of segments: each marker followed by its content. */
  function Render(fs: seq<Field>): string {
    if fs == [] then "" else fs[0].marker + fs[0].content + Render(fs[1..])
  }

  /** The markers of a list of segments, in order. */
  function MarkersOf(fs: seq<Field>): seq<string> {
    seq(|fs|, i requires 0 <= i < |fs| => fs[i].marker)
  }

  /** The markers of a line: those of the shown optional segments, then category and text. */
  lemma MarkersOfFields(showTimestamp: bool, showLevel: bool, level: Level, category: string, text: string,
                        now: string, m: Styles)
    ensures MarkersOf(Fields(showTimestamp, showLevel, level, category, text, now, m))
      == (if showTimestamp then [m.timestamp] else []) + (if showLevel then [m.level] else []) + [m.category, m.text]
  {
  }

  lemma {:induction false} RenderConcat(fs: seq<Field>, gs: seq<Field>)
    ensures Render(fs + gs) == Render(fs) + Render(gs)
  {
    if fs == [] {
      assert fs + gs == gs;
    } else {
      assert (fs + gs)[1..] == fs[1..] + gs;
      RenderConcat(fs[1..], gs);
    }
  }

  lemma RenderOne(f: Field)
    ensures Render([f]) == f.marker + f.content
  {
    assert [f][1..] == [];
  }

  /** A list of segments renders as its optional timestamp and level pieces, then category and text. */
  lemma RenderFields(showTimestamp: bool, showLevel: bool, level: Level, category: string, text: string,
                     now: string, m: Styles)
    ensures Render(Fields(showTimestamp, showLevel, level, category, text, now, m))
      == (if showTimestamp then m.timestamp + (now + " ") else "")
       + (if showLevel then m.level + LevelTag(level) else "")
       + (m.category + category) + (m.text + text)
  {
    var a := if showTimestamp then [Field(m.timestamp, now + " ")] else [];
    var b := if showLevel then [Field(m.level, LevelTag(level))] else [];
    var x, y := Field(m.category, category), Field(m.text, text);
    assert Fields(showTimestamp, showLevel, level, category, text, now, m) == a + b + [x, y];
    assert Render(a) == (if showTimestamp then m.timestamp + (now + " ") else "") by {
      if showTimestamp { RenderOne(Field(m.timestamp, now + " ")); }
    }
    assert Render(b) == (if showLevel then m.level + LevelTag(level) else "") by {
      if showLevel { RenderOne(Field(m.level, LevelTag(level))); }
    }
    assert a + b + [x, y] == (a + b + [x]) + [y];
    RenderConcat(a + b + [x], [y]);
    RenderConcat(a + b, [x]);
    RenderConcat(a, b);
    RenderOne(x);
    RenderOne(y);
  }

  /** `_createLogMessage` on Node: the format arguments (after `||` defaulting) stand before their segments. */
  lemma NodeMessage(o: Options, category: string, level: Level, text: string, now: string,
                    tf: Option<string>, lf: Option<string>, cf: Option<string>, xf: Option<string>)
    ensures CreateLogMessage(Node, o, category, level, text, now, tf, lf, cf, xf)
      == Or(tf, "") + (if Flag(o, ShowTimestamp) then now + " " else "")
       + (if Flag(o, ShowLevel) then Or(lf, "") + LevelTag(level) else "")
       + (Or(cf, "") + category) + (Or(xf, ": ") + text)
  {
  }

  /**
   * On Node the file line is exactly the plain layout and the console line
   * the same layout with the `_format` tokens as markers.
   */
  lemma NodeLinesFollowFields(o: Options, category: string, level: Level, text: string, now: string)
    ensures Unformatted(Node, o, category, level, text, now) == Render(LineFields(o, level, category, text, now, PlainStyles))
    ensures Formatted(Node, o, category, level, text, now)
      == Render(LineFields(o, level, category, text, now, FormatStyles(Node, o, level)))
  {
    var s := FormatStyles(Node, o, level);
    var ts, lv := Flag(o, ShowTimestamp), Flag(o, ShowLevel);
    NodeMessage(o, category, level, text, now, None, None, None, None);
    NodeMessage(o, category, level, text, now, Some(s.timestamp), Some(s.level), Some(s.category), Some(s.text));
    RenderFields(ts, lv, level, category, text, now, PlainStyles);
    RenderFields(ts, lv, level, category, text, now, s);
    assert Or(Some(s.timestamp), "") == s.timestamp;
    assert Or(Some(s.level), "") == s.level;
    assert Or(Some(s.category), "") == s.category;
    assert Or(Some(s.text), ": ") == s.text;
    if !ts {
      assert s.timestamp == "";
    }
  }

  /** `_createLogMessage` on the browser: every format argument is replaced by a placeholder. */
  lemma BrowserMessage(o: Options, category: string, level: Level, text: string, now: string,
                       tf: Option<string>, lf: Option<string>, cf: Option<string>, xf: Option<string>)
    requires !Flag(o, ShowTimestamp) ==> Or(tf, "") == ""
    ensures CreateLogMessage(Browser, o, category, level, text, now, tf, lf, cf, xf)
      == (if Flag(o, ShowTimestamp) then "%c" + (now + " ") else "")
       + (if Flag(o, ShowLevel) then "%c" + LevelTag(level) else "")
       + ("%c" + category) + (": %c" + text)
  {
  }

  /**
   * On the browser both lines are the placeholder template: the `%c`
   * substitution is applied to the file line too.
   */
  lemma BrowserLinesFollowFields(o: Options, category: string, level: Level, text: string, now: string)
    ensures Unformatted(Browser, o, category, level, text, now) == Render(LineFields(o, level, category, text, now, Placeholders))
    ensures Formatted(Browser, o, category, level, text, now) == Render(LineFields(o, level, category, text, now, Placeholders))
  {
    var s := FormatStyles(Browser, o, level);
    BrowserMessage(o, category, level, text, now, None, None, None, None);
    BrowserMessage(o, category, level, text, now, Some(s.timestamp), Some(s.level), Some(s.category), Some(s.text));
    RenderFields(Flag(o, ShowTimestamp), Flag(o, ShowLevel), level, category, text, now, Placeholders);
  }

  /** On Node without colours the console line is the file line (for the same clock reading). */
  lemma NodeColourlessLinesAgree(o: Options, category: string, level: Level, text: string, now: string)
    requires !Flag(o, UseColors)
    ensures Formatted(Node, o, category, level, text, now) == Unformatted(Node, o, category, level, text, now)
  {
    NodeLinesFollowFields(o, category, level, text, now);
  }

  /** The five tags as written out: INFO and WARN carry the extra space. */
  lemma LevelTags()
    ensures LevelTag(DEBUG) == "[DEBUG] " && LevelTag(INFO) == "[INFO]  " && LevelTag(WARN) == "[WARN]  "
    ensures LevelTag(ERROR) == "[ERROR] " && LevelTag(NONE) == "[NONE] "
  {
  }

  /** The level tags of the four entry points all have width 8, so the category column lines up. */
  lemma LevelTagAligned(level: Level)
    requires Emitting(level)
    ensures |LevelTag(level)| == 8
    ensures LevelTag(level)[..|Name(level)| + 2] == "[" + Name(level) + "]"
  {
  }

  // ---------------------------------------------------------------------
  // Counting characters: no markup is added to the data

  /** The number of occurrences of `c` in `s`. */
  function CountChar(c: char, s: string): (n: nat)
    ensures n <= |s|
    ensures n == 0 <==> c !in s
  {
    if s == [] then 0 else (if s[0] == c then 1 else 0) + CountChar(c, s[1..])
  }

  lemma {:induction false} CountCharConcat(c: char, a: string, b: string)
    ensures CountChar(c, a + b) == CountChar(c, a) + CountChar(c, b)
  {
    if a == [] {
      assert a + b == b;
    } else {
      assert (a + b)[1..] == a[1..] + b;
      CountCharConcat(c, a[1..], b);
    }
  }

  /** Occurrences of `c` in a rendered line: those of its markers plus those of its contents. */
  lemma CountInFields(c: char, showTimestamp: bool, showLevel: bool, level: Level, category: string, text: string,
                      now: string, m: Styles)
    ensures CountChar(c, Render(Fields(showTimestamp, showLevel, level, category, text, now, m)))
      == (if showTimestamp then CountChar(c, m.timestamp) + CountChar(c, now) + CountChar(c, " ") else 0)
       + (if showLevel then CountChar(c, m.level) + CountChar(c, LevelTag(level)) else 0)
       + CountChar(c, m.category) + CountChar(c, category) + CountChar(c, m.text) + CountChar(c, text)
  {
    RenderFields(showTimestamp, showLevel, level, category, text, now, m);
    var t := if showTimestamp then m.timestamp + (now + " ") else "";
    var l := if showLevel then m.level + LevelTag(level) else "";
    CountCharConcat(c, now, " ");
    CountCharConcat(c, m.timestamp, now + " ");
    CountCharConcat(c, m.level, LevelTag(level));
    CountCharConcat(c, m.category, category);
    CountCharConcat(c, m.text, text);
    CountCharConcat(c, t, l);
    CountCharConcat(c, t + l, m.category + category);
    CountCharConcat(c, t + l + (m.category + category), m.text + text);
  }

  /** The level tag holds neither an escape character nor a `%`. */
  lemma LevelTagIsPlain(level: Level)
    ensures ESC !in LevelTag(level) && '%' !in LevelTag(level)
  {
    assert ESC !in Name(level) && '%' !in Name(level);
  }

  /** On Node the file line holds no escape character beyond those in the clock reading, category and text. */
  lemma NodeFileLineAddsNoEscapes(o: Options, category: string, level: Level, text: string, now: string)
    ensures CountChar(ESC, Unformatted(Node, o, category, level, text, now))
      == (if Flag(o, ShowTimestamp) then CountChar(ESC, now) else 0) + CountChar(ESC, category) + CountChar(ESC, text)
  {
    NodeLinesFollowFields(o, category, level, text, now);
    CountInFields(ESC, Flag(o, ShowTimestamp), Flag(o, ShowLevel), level, category, text, now, PlainStyles);
    LevelTagIsPlain(level);
    assert ESC !in " " && ESC !in ": " && ESC !in "";
  }

  /** An SGR sequence holds exactly one escape character. */
  lemma SgrHasOneEscape(s: string)
    requires IsSgr(s)
    ensures CountChar(ESC, s) == 1
  {
    assert s == [s[0]] + s[1..];
    CountCharConcat(ESC, [s[0]], s[1..]);
  }

  /** Grey, the timestamp colour, as text on each target. */
  lemma GreyTexts()
    ensures ToText(ColorValue(Node, Grey)) == "7"
    ensures ToText(ColorValue(Browser, Grey)) == "DimGrey"
  {
    assert Digits(7) == [DigitChar(7)];
  }

  /** On Node with the timestamp and the level shown, the console line segment by segment. */
  lemma FullNodeConsoleLine(o: Options, category: string, level: Level, text: string, now: string)
    requires Flag(o, ShowTimestamp) && Flag(o, ShowLevel)
    ensures var s := FormatStyles(Node, o, level);
      Formatted(Node, o, category, level, text, now)
      == s.timestamp + (now + " ") + (s.level + LevelTag(level)) + (s.category + category) + (s.text + text)
  {
    var s := FormatStyles(Node, o, level);
    NodeMessage(o, category, level, text, now, Some(s.timestamp), Some(s.level), Some(s.category), Some(s.text));
    assert Or(Some(s.timestamp), "") == s.timestamp;
    assert Or(Some(s.level), "") == s.level;
    assert Or(Some(s.category), "") == s.category;
    assert Or(Some(s.text), ": ") == s.text;
  }

  /** On Node the default `color` option (`Colors.Default`, 9) reads as the text `"9"`. */
  lemma DefaultColorText(given: Options)
    requires Color !in given
    ensures Setting(Resolve(Node, given), Color) == "9"
  {
    assert Resolve(Node, given)[Color] == Num(9);
    assert Digits(9) == [DigitChar(9)];
  }

  /** The text of the colour `loglevelColors` holds for each entry-point level, on both targets. */
  lemma LevelColorTexts(level: Level)
    requires Emitting(level)
    ensures ToText(LevelColors(Node)[Ordinal(level)]) == ["6", "2", "3", "1"][Ordinal(level)]
    ensures ToText(LevelColors(Browser)[Ordinal(level)]) == ["SkyBlue", "LimeGreen", "Orange", "IndianRed"][Ordinal(level)]
  {
    match level
    case DEBUG => assert Digits(6) == "6";
    case INFO => assert Digits(2) == "2";
    case WARN => assert Digits(3) == "3";
    case ERROR => assert Digits(1) == "1";
  }

  /**
   * The Node tokens with colours on: `'\u001b[37m'` before a shown
   * timestamp, `'\u001b[3' + [6, 2, 3, 1][i] + ';22m'` for the level at
   * position i, `'\u001b[3' + color + ';1m'` for the category and
   * `'\u001b[0m: '` before the text.
   */
  lemma NodeStyleTokens(o: Options, level: Level)
    requires Flag(o, UseColors) && Emitting(level)
    ensures var s := FormatStyles(Node, o, level);
      && s.timestamp == (if Flag(o, ShowTimestamp) then [ESC] + "[3" + "7" + "m" else "")
      && s.level == [ESC] + "[3" + ["6", "2", "3", "1"][Ordinal(level)] + ";22m"
      && s.category == [ESC] + "[3" + Setting(o, Color) + ";1m"
      && s.text == [ESC] + "[0m: "
  {
    PositionOfName(level);
    LevelColorTexts(level);
    GreyTexts();
    assert FormatStyles(Node, o, level) == AnsiStyles(o, LevelColors(Node)[Ordinal(level)]);
  }

  /**
   * The browser tokens with colours on: `'color:DimGrey'` for a shown
   * timestamp, `'color:' + ['SkyBlue', 'LimeGreen', 'Orange', 'IndianRed'][i]`
   * for the level, `'color:' + color + '; font-weight: bold'` for the
   * category, and `': '` (not a colour) for the text.
   */
  lemma BrowserStyleTokens(o: Options, level: Level)
    requires Flag(o, UseColors) && Emitting(level)
    ensures var s := FormatStyles(Browser, o, level);
      && s.timestamp == (if Flag(o, ShowTimestamp) then "color:" + "DimGrey" else "")
      && s.level == "color:" + ["SkyBlue", "LimeGreen", "Orange", "IndianRed"][Ordinal(level)]
      && s.category == "color:" + Setting(o, Color) + "; font-weight: bold"
      && s.text == ": "
  {
    PositionOfName(level);
    LevelColorTexts(level);
    GreyTexts();
    assert FormatStyles(Browser, o, level) == CssStyles(o, LevelColors(Browser)[Ordinal(level)]);
  }

  /**
   * On Node with colours on, the console line holds the file line's escape
   * characters plus one per style token: timestamp (if shown), level (if
   * shown), category (with the colour's own), and the reset.
   */
  lemma NodeConsoleLineEscapes(o: Options, category: string, level: Level, text: string, now: string)
    requires Flag(o, UseColors)
    ensures CountChar(ESC, Formatted(Node, o, category, level, text, now))
      == CountChar(ESC, Unformatted(Node, o, category, level, text, now))
       + (if Flag(o, ShowTimestamp) then 1 else 0) + (if Flag(o, ShowLevel) then 1 else 0)
       + 2 + CountChar(ESC, Setting(o, Color))
  {
    var ts, lv := Flag(o, ShowTimestamp), Flag(o, ShowLevel);
    var s := FormatStyles(Node, o, level);
    AnsiTokenEscapes(o, level);
    NodeLinesFollowFields(o, category, level, text, now);
    CountInFields(ESC, ts, lv, level, category, text, now, PlainStyles);
    CountInFields(ESC, ts, lv, level, category, text, now, s);
    assert ESC !in "" && ESC !in ": ";
  }

  /** Escape characters in each Node token with colours on. */
  lemma AnsiTokenEscapes(o: Options, level: Level)
    requires Flag(o, UseColors)
    ensures var s := FormatStyles(Node, o, level);
      && CountChar(ESC, s.timestamp) == (if Flag(o, ShowTimestamp) then 1 else 0)
      && CountChar(ESC, s.level) == 1
      && CountChar(ESC, s.category) == 1 + CountChar(ESC, Setting(o, Color))
      && CountChar(ESC, s.text) == 1
  {
    PositionOfName(level);
    AnsiStylesEscapes(o, LevelColors(Node)[Ordinal(level)]);
  }

  lemma AnsiStylesEscapes(o: Options, levelColor: Value)
    requires levelColor.Num?
    ensures var s := AnsiStyles(o, levelColor);
      && CountChar(ESC, s.timestamp) == (if Flag(o, ShowTimestamp) then 1 else 0)
      && CountChar(ESC, s.level) == 1
      && CountChar(ESC, s.category) == 1 + CountChar(ESC, Setting(o, Color))
      && CountChar(ESC, s.text) == 1
  {
    var s := AnsiStyles(o, levelColor);
    if Flag(o, ShowTimestamp) { SgrHasOneEscape(s.timestamp); }
    SgrHasOneEscape(s.level);
    CategoryTokenEscapes(Setting(o, Color));
    ResetTokenEscapes();
  }

  lemma CategoryTokenEscapes(color: string)
    ensures CountChar(ESC, [ESC] + "[3" + color + ";1m") == 1 + CountChar(ESC, color)
  {
    assert ESC !in "[3" && ESC !in ";1m";
    EscapeAround(color, "[3", ";1m");
  }

  lemma ResetTokenEscapes()
    ensures CountChar(ESC, [ESC] + "[0m: ") == 1
  {
    assert ESC !in "[0m: ";
    CountCharConcat(ESC, [ESC], "[0m: ");
    assert [ESC][1..] == [];
  }

  /** A text between an escape-led prefix and a suffix keeps its own escapes and gains one. */
  lemma EscapeAround(t: string, pre: string, post: string)
    requires ESC !in pre && ESC !in post
    ensures CountChar(ESC, [ESC] + pre + t + post) == 1 + CountChar(ESC, t)
  {
    CountCharConcat(ESC, [ESC] + pre + t, post);
    CountCharConcat(ESC, [ESC] + pre, t);
    CountCharConcat(ESC, [ESC], pre);
    assert [ESC][1..] == [];
  }

  // ---------------------------------------------------------------------
  // The console call

  /**
   * The arguments of the `console.log` call of a log call that passes the
   * filter: on Node the console line alone; on the browser the template
   * followed by the style token of every segment present, in order.
   */
  function ConsoleCall(target: Target, o: Options, category: string, level: Level, text: string, now: string): seq<string> {
    var line := Formatted(target, o, category, level, text, now);
    match target
    case Node => [line]
    case Browser => [line] + MarkersOf(LineFields(o, level, category, text, now, FormatStyles(Browser, o, level)))
  }

  /**
   * The browser console call written out: the template, then the timestamp
   * token if timestamps are shown, the level token if levels are shown, the
   * category token and the text token.
   */
  lemma BrowserConsoleArguments(o: Options, category: string, level: Level, text: string, now: string)
    ensures var s, line, ts, lv := FormatStyles(Browser, o, level), Formatted(Browser, o, category, level, text, now),
                                   Flag(o, ShowTimestamp), Flag(o, ShowLevel);
      var args := ConsoleCall(Browser, o, category, level, text, now);
      && (ts && lv ==> args == [line, s.timestamp, s.level, s.category, s.text])
      && (ts && !lv ==> args == [line, s.timestamp, s.category, s.text])
      && (!ts && lv ==> args == [line, s.level, s.category, s.text])
      && (!ts && !lv ==> args == [line, s.category, s.text])
  {
    var s, line := FormatStyles(Browser, o, level), Formatted(Browser, o, category, level, text, now);
    var ts, lv := Flag(o, ShowTimestamp), Flag(o, ShowLevel);
    MarkersOfFields(ts, lv, level, category, text, now, s);
    ArgumentsWrittenOut(line, s, ts, lv);
  }

  lemma ArgumentsWrittenOut(line: string, s: Styles, ts: bool, lv: bool)
    ensures [line] + ((if ts then [s.timestamp] else []) + (if lv then [s.level] else []) + [s.category, s.text])
      == if ts && lv then [line, s.timestamp, s.level, s.category, s.text]
         else if ts then [line, s.timestamp, s.category, s.text]
         else if lv then [line, s.level, s.category, s.text]
         else [line, s.category, s.text]
  {
  }

  lemma PlaceholderCounts()
    ensures CountChar('%', "%c") == 1 && CountChar('%', ": %c") == 1
  {
    assert "%c"[1..] == "c" && '%' !in "c";
    assert ": %c" == ": " + "%c" && '%' !in ": ";
    CountCharConcat('%', ": ", "%c");
  }

  /**
   * On the browser the template carries one `%c` per style argument
   * (2 + [showTimestamp] + [showLevel] of each); any further `%` comes from
   * the shown clock reading, the category or the text.
   */
  lemma PlaceholdersMatchArguments(o: Options, category: string, level: Level, text: string, now: string)
    ensures var args := ConsoleCall(Browser, o, category, level, text, now);
      && |args| == 3 + (if Flag(o, ShowTimestamp) then 1 else 0) + (if Flag(o, ShowLevel) then 1 else 0)
      && CountChar('%', args[0])
         == |args| - 1 + (if Flag(o, ShowTimestamp) then CountChar('%', now) else 0)
          + CountChar('%', category) + CountChar('%', text)
  {
    BrowserLinesFollowFields(o, category, level, text, now);
    CountInFields('%', Flag(o, ShowTimestamp), Flag(o, ShowLevel), level, category, text, now, Placeholders);
    PlaceholderCounts();
    LevelTagIsPlain(level);
    assert '%' !in " ";
  }

  // ---------------------------------------------------------------------
  // Two concrete lines

  /**
   * Node, timestamp off, level on, colours off, `warn("retry")` from
   * category `Net`: the console receives `[WARN]  Net: retry`, with the
   * two spaces of the alignment quirk.
   */
  lemma WarnWithoutTimestampOrColours(now: string)
    ensures var o := Resolve(Node, map[ShowTimestamp := Bool(false), ShowLevel := Bool(true), UseColors := Bool(false)]);
      ConsoleCall(Node, o, "Net", WARN, "retry", now) == ["[WARN]  Net: retry"]
  {
    var o := Resolve(Node, map[ShowTimestamp := Bool(false), ShowLevel := Bool(true), UseColors := Bool(false)]);
    assert !Flag(o, ShowTimestamp) && Flag(o, ShowLevel) && !Flag(o, UseColors);
    PlainWarnLine(o, "Net", "retry", now);
    assert "[WARN]  " + "Net" + (": " + "retry") == "[WARN]  Net: retry";
  }

  /** Node, timestamp off, level on, colours off: a warning is the padded tag, the category, `": "` and the text. */
  lemma PlainWarnLine(o: Options, category: string, text: string, now: string)
    requires !Flag(o, ShowTimestamp) && Flag(o, ShowLevel) && !Flag(o, UseColors)
    ensures ConsoleCall(Node, o, category, WARN, text, now) == ["[WARN]  " + category + (": " + text)]
  {
    assert FormatStyles(Node, o, WARN) == PlainStyles;
    var line := Formatted(Node, o, category, WARN, text, now);
    assert line == CreateLogMessage(Node, o, category, WARN, text, now, Some(""), Some(""), Some(""), Some(": "));
    NodeMessage(o, category, WARN, text, now, Some(""), Some(""), Some(""), Some(": "));
    LevelTags();
    assert line == "" + "" + ("" + "[WARN]  ") + ("" + category) + (": " + text);
    assert "" + "" + ("" + "[WARN]  ") + ("" + category) == "[WARN]  " + category;
  }

  /**
   * Node, the four style options left to their defaults, `info(text)`: the
   * file line is the clock reading, a space, the tag `[INFO]` with two
   * spaces, the category, `": "` and the text.
   */
  lemma DefaultInfoFileLine(given: Options, category: string, text: string, now: string)
    requires ShowTimestamp !in given && ShowLevel !in given
    ensures Unformatted(Node, Resolve(Node, given), category, INFO, text, now)
      == (now + " ") + "[INFO]  " + category + (": " + text)
  {
    var o := Resolve(Node, given);
    assert Flag(o, ShowTimestamp) && Flag(o, ShowLevel);
    NodeMessage(o, category, INFO, text, now, None, None, None, None);
    LevelTags();
  }

  /**
   * Node, the four style options left to their defaults, `info(text)`: the
   * console line, segment by segment (grey timestamp, green level, category
   * in the default colour, reset before the text).
   */
  lemma DefaultInfoConsoleLine(given: Options, category: string, text: string, now: string)
    requires UseColors !in given && Color !in given && ShowTimestamp !in given && ShowLevel !in given
    ensures Formatted(Node, Resolve(Node, given), category, INFO, text, now)
      == ([ESC] + "[3" + "7" + "m") + (now + " ") + ([ESC] + "[3" + "2" + ";22m" + "[INFO]  ")
       + ([ESC] + "[3" + "9" + ";1m" + category) + ([ESC] + "[0m: " + text)
  {
    var o := Resolve(Node, given);
    assert Flag(o, UseColors) && Flag(o, ShowTimestamp) && Flag(o, ShowLevel);
    DefaultColorText(given);
    InfoConsoleLine(o, category, text, now);
  }

  /** An INFO console line on Node with every segment shown and the category in colour 9. */
  lemma InfoConsoleLine(o: Options, category: string, text: string, now: string)
    requires Flag(o, UseColors) && Flag(o, ShowTimestamp) && Flag(o, ShowLevel)
    requires Setting(o, Color) == "9"
    ensures Formatted(Node, o, category, INFO, text, now)
      == ([ESC] + "[3" + "7" + "m") + (now + " ") + ([ESC] + "[3" + "2" + ";22m" + "[INFO]  ")
       + ([ESC] + "[3" + "9" + ";1m" + category) + ([ESC] + "[0m: " + text)
  {
    var s := FormatStyles(Node, o, INFO);
    NodeStyleTokens(o, INFO);
    assert s.level == [ESC] + "[3" + "2" + ";22m" by {
      assert ["6", "2", "3", "1"][Ordinal(INFO)] == "2";
    }
    FullNodeConsoleLine(o, category, INFO, text, now);
    LevelTags();
  }
}
