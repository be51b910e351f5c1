// The character-level helpers of the restricted YAML writer and reader
// (config.py): quoting, scalars, comments and lines.

module YamlText {
  import opened Base

  /** `str.isspace`. */
  predicate Space(c: char) {
    || c == ' ' || '\t' <= c <= '\r' || '\U{1C}' <= c <= '\U{1F}' || c == '\U{85}' || c == '\U{A0}' || c == '\U{1680}'
    || '\U{2000}' <= c <= '\U{200A}' || c == '\U{2028}' || c == '\U{2029}' || c == '\U{202F}' || c == '\U{205F}' || c == '\U{3000}'
  }

  /** What `str.splitlines` splits at. */
  predicate Breaks(c: char) {
    '\n' <= c <= '\r' || '\U{1C}' <= c <= '\U{1E}' || c == '\U{85}' || c == '\U{2028}' || c == '\U{2029}'
  }

  /** A line break that the writer does not escape. */
  predicate OddBreak(c: char) { Breaks(c) && c != '\n' && c != '\r' }

  function LStrip(s: string): string { if s != "" && Space(s[0]) then LStrip(s[1..]) else s }

  function RStrip(s: string): string { if s != "" && Space(s[|s| - 1]) then RStrip(s[..|s| - 1]) else s }

  function Strip(s: string): string { RStrip(LStrip(s)) }

  function IndentOf(line: string): nat { if line != "" && line[0] == ' ' then 1 + IndentOf(line[1..]) else 0 }

  // ---- Quoting ----

  predicate Special(c: char) {
    || c == ':' || c == '#' || c == '{' || c == '}' || c == '[' || c == ']' || c == ',' || c == '&' || c == '*' || c == '!'
    || c == '|' || c == '>' || c == '\'' || c == '"' || c == '%' || c == '@' || c == '`'
  }

  predicate Escaped(c: char) { c == '\n' || c == '\r' || c == '\t' }

  predicate Digit(c: char) { '0' <= c <= '9' }

  predicate Digits(s: string) { s != "" && forall i | 0 <= i < |s| :: Digit(s[i]) }

  /** `-?\d+` on the whole text. */
  predicate IntText(s: string) { Digits(s) || (s != "" && s[0] == '-' && Digits(s[1..])) }

  function Lower(c: char): char { if 'A' <= c <= 'Z' then c - 'A' + 'a' else c }

  function LowerAll(s: string): string { if s == "" then "" else [Lower(s[0])] + LowerAll(s[1..]) }

  predicate Word(s: string) { s == "true" || s == "false" || s == "null" }

  predicate Reserved(s: string) { IntText(s) || Word(LowerAll(s)) || s == "~" }

  predicate NeedsQuote(t: string) {
    || t == "" || Reserved(t) || Strip(t) != t
    || t[0] == '-' || t[0] == '?'
    || exists i | 0 <= i < |t| :: Special(t[i]) || Escaped(t[i])
  }

  function EscapeChar(c: char): string {
    if c == '\\' then "\\\\" else if c == '"' then "\\\"" else if c == '\n' then "\\n"
    else if c == '\r' then "\\r" else if c == '\t' then "\\t" else [c]
  }

  /** The chain of `replace` calls, backslash first. */
  function EscapeText(t: string): string { if t == "" then "" else EscapeChar(t[0]) + EscapeText(t[1..]) }

  function Quoted(t: string): string { "\"" + EscapeText(t) + "\"" }

  /** `_quote_scalar`. */
  function QuoteScalar(t: string): string { if NeedsQuote(t) then Quoted(t) else t }

  function UnescapeChar(c: char): char {
    if c == 'n' then '\n' else if c == 'r' then '\r' else if c == 't' then '\t' else if c == '0' then '\0' else c
  }

  /** `_unescape` for double quotes. */
  function Unescape(s: string): string {
    if s == "" then ""
    else if s[0] == '\\' && |s| > 1 then [UnescapeChar(s[1])] + Unescape(s[2..])
    else [s[0]] + Unescape(s[1..])
  }

  /** `_unescape` for single quotes. */
  function Undouble(s: string): string {
    if s == "" then ""
    else if |s| > 1 && s[0] == '\'' && s[1] == '\'' then "'" + Undouble(s[2..])
    else [s[0]] + Undouble(s[1..])
  }

  // ---- Scalars ----

  datatype Scalar = Nil | Flag(b: bool) | Num(n: int) | Txt(text: string)

  function DigitsOf(n: nat): string { if n < 10 then [n as char + '0'] else DigitsOf(n / 10) + [(n % 10) as char + '0'] }

  function FromInt(n: int): string { if n < 0 then "-" + DigitsOf(-n) else DigitsOf(n) }

  function ToNat(s: string): nat
    requires forall i | 0 <= i < |s| :: Digit(s[i])
  {
    if s == "" then 0
    else
      assert Digit(s[|s| - 1]);
      ToNat(s[..|s| - 1]) * 10 + (s[|s| - 1] as nat - '0' as nat)
  }

  function ToInt(s: string): int
    requires IntText(s)
  {
    if s[0] == '-' then 0 - ToNat(s[1..]) else ToNat(s)
  }

  function DumpScalar(v: Scalar): string {
    match v
    case Nil => "null"
    case Flag(b) => if b then "true" else "false"
    case Num(n) => FromInt(n)
    case Txt(t) => QuoteScalar(t)
  }

  predicate NullWord(t: string) { t == "" || t == "~" || t == "null" || t == "Null" || t == "NULL" }

  predicate TrueWord(t: string) { t == "true" || t == "True" || t == "TRUE" }

  predicate FalseWord(t: string) { t == "false" || t == "False" || t == "FALSE" }

  function ParseScalar(token: string): Scalar {
    var t := Strip(token);
    if NullWord(t) then Nil
    else if TrueWord(t) then Flag(true)
    else if FalseWord(t) then Flag(false)
    else if |t| >= 2 && t[0] == t[|t| - 1] && t[0] == '"' then Txt(Unescape(t[1..|t| - 1]))
    else if |t| >= 2 && t[0] == t[|t| - 1] && t[0] == '\'' then Txt(Undouble(t[1..|t| - 1]))
    else if IntText(t) then Num(ToInt(t))
    else Txt(t)
  }

  // ---- Comments and lines ----

  /** The scan's memory: the previous character and the two quote flags. */
  datatype Scan = Scan(prev: Option<char>, single: bool, double: bool)

  function Step(m: Scan, c: char): Scan {
    if c == '\'' && !m.double then Scan(Some(c), !m.single, m.double)
    else if c == '"' && !m.single then
      Scan(Some(c), m.single, if m.double && m.prev == Some('\\') then m.double else !m.double)
    else Scan(Some(c), m.single, m.double)
  }

  predicate Comment(m: Scan, c: char) {
    c == '#' && !m.single && !m.double && (m.prev == None || m.prev == Some(' ') || m.prev == Some('\t'))
  }

  function Uncommented(m: Scan, s: string): string
    decreases |s|
  {
    if s == "" || Comment(m, s[0]) then "" else [s[0]] + Uncommented(Step(m, s[0]), s[1..])
  }

  const START: Scan := Scan(None, false, false)

  /** `_strip_comment`. */
  function StripComment(line: string): string { Uncommented(START, line) }

  /** `str.splitlines`, with the characters of the current line so far. */
  function SplitFrom(text: string, line: string): seq<string>
    decreases |text|
  {
    if text == "" then if line == "" then [] else [line]
    else if text[0] == '\r' && |text| > 1 && text[1] == '\n' then [line] + SplitFrom(text[2..], "")
    else if Breaks(text[0]) then [line] + SplitFrom(text[1..], "")
    else SplitFrom(text[1..], line + [text[0]])
  }

  function SplitLines(text: string): seq<string> { SplitFrom(text, "") }

  /** `"\n".join(lines) + "\n"`. */
  function JoinLines(lines: seq<string>): string { if lines == [] then "" else lines[0] + "\n" + JoinLines(lines[1..]) }

  /** `content.partition(":")`: what precedes and follows the first colon. */
  function Partition(s: string): (string, string) {
    if s == "" then ("", "")
    else if s[0] == ':' then ("", s[1..])
    else var r := Partition(s[1..]); ([s[0]] + r.0, r.1)
  }

  /** `startswith("- ")` or exactly `-`. */
  predicate Dashed(content: string) { content == "-" || "- " <= content }
}
