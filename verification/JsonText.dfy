/**
 The text of a report and its reader: the indented, ASCII-only printing of a JSON
 value, and the scanner that counts its tokens and nesting without decoding it.
 */
module JsonText {

  import opened Wrappers
  import opened ReportContract

  // ----- Printing -----

  function HexDigit(n: nat): (c: char)
    requires n < 16
    ensures '0' <= c <= '9' || 'a' <= c <= 'f'
  {
    "0123456789abcdef"[n]
  }

  /** `\uXXXX` for one UTF-16 unit. */
  function Unit(n: nat): string
    requires n < 0x1_0000
  {
    "\\u" + [HexDigit(n / 4096), HexDigit(n / 256 % 16), HexDigit(n / 16 % 16), HexDigit(n % 16)]
  }

  /** One character of a string, as an ensure_ascii encoder writes it. */
  function Escape(c: CodePoint): string {
    if c == '\"' as int then "\\\""
    else if c == '\\' as int then "\\\\"
    else if c == 10 then "\\n"
    else if c == 13 then "\\r"
    else if c == 9 then "\\t"
    else if c == 12 then "\\f"
    else if c == 8 then "\\b"
    else if ' ' as int <= c <= '~' as int then [c as char]
    else if c < 0x1_0000 then Unit(c)
    else Unit(0xd800 + (c - 0x1_0000) / 1024) + Unit(0xdc00 + (c - 0x1_0000) % 1024)
  }

  function Escaped(s: seq<CodePoint>): string {
    if s == [] then "" else Escaped(s[..|s| - 1]) + Escape(s[|s| - 1])
  }

  function Quote(s: seq<CodePoint>): string {
    "\"" + Escaped(s) + "\""
  }

  /** A line break and the indentation of a level; nl is LF, or CR LF on Windows. */
  function Break(level: nat, nl: string): string {
    nl + seq(2 * level, _ => ' ')
  }

  function Decimal(n: int): (t: Bare) {
    if n < 0 then "-" + Digits(-n) else Digits(n)
  }

  function Digits(n: nat): (t: Bare) {
    var last := HexDigit(n % 10);
    assert IsBare(last);
    if n < 10 then [last] else Digits(n / 10) + [last]
  }

  function Print(v: Json, level: nat, nl: string): string
    decreases v, |v.Children()| + 1
  {
    match v
    case Literal(word) => word
    case Integer(n) => Decimal(n)
    case Float(text) => text
    case NonFinite => "null"
    case Text(s) => Quote(s)
    case Array(items) =>
      if items == [] then "[]" else "[" + PrintFirst(v, |items|, level + 1, nl) + Break(level, nl) + "]"
    case Object(fields) =>
      if fields == [] then "{}" else "{" + PrintFirst(v, |fields|, level + 1, nl) + Break(level, nl) + "}"
  }

  /** The first n children of a container, each on a line of its own, with their keys. */
  function PrintFirst(v: Json, n: nat, level: nat, nl: string): string
    requires n <= |v.Children()|
    decreases v, n
  {
    if n == 0 then ""
    else
      PrintFirst(v, n - 1, level, nl) + Lead(v, n - 1, level, nl) + Print(v.Children()[n - 1], level, nl)
  }

  /** What stands between two children. */
  function Lead(v: Json, i: nat, level: nat, nl: string): string
    requires i < |v.Children()|
  {
    (if i > 0 then "," else "") + Break(level, nl) + if v.Object? then Quote(v.fields[i].key) + ": " else ""
  }

  // ----- Scanning -----

  datatype Scan = Scan(depth: int, quoted: bool, escaped: bool, tokens: nat, scalar: bool, peak: int)

  const START := Scan(0, false, false, 0, false, 0)

  /** One character; peak records the greatest depth so far. */
  function Next(s: Scan, c: char): Scan {
    if s.quoted then
      if s.escaped then s.(escaped := false)
      else if c == '\\' then s.(escaped := true)
      else if c == '\"' then s.(quoted := false)
      else s
    else if c == '\"' then s.(quoted := true, tokens := s.tokens + 1, scalar := false)
    else if c == '[' || c == '{' then
      s.(tokens := s.tokens + 1, scalar := false, depth := s.depth + 1, peak := Max(s.peak, s.depth + 1))
    else if c == ']' || c == '}' then s.(depth := s.depth - 1, scalar := false)
    else if IsSpace(c) || c == ',' || c == ':' then s.(scalar := false)
    else if !s.scalar then s.(tokens := s.tokens + 1, scalar := true)
    else s
  }

  function Run(s: Scan, text: string): Scan {
    if text == "" then s else Next(Run(s, text[..|text| - 1]), text[|text| - 1])
  }

  lemma {:induction false} RunConcat(s: Scan, a: string, b: string)
    ensures Run(s, a + b) == Run(Run(s, a), b)
  {
    if b == "" {
      assert a + b == a;
    } else {
      assert (a + b)[..|a + b| - 1] == a + b[..|b| - 1];
      RunConcat(s, a, b[..|b| - 1]);
    }
  }

  /** Counts never fall, so a limit once exceeded stays exceeded. */
  lemma {:induction false} RunGrows(s: Scan, text: string)
    ensures Run(s, text).tokens >= s.tokens && Run(s, text).peak >= s.peak
  {
    if text != "" {
      RunGrows(s, text[..|text| - 1]);
    }
  }

  /** The reader's scan, with its early exits. */
  method CheckTextDepth(text: string) returns (ok: bool)
    ensures ok <==> Run(START, text).tokens <= MAX_REPORT_VALUES && Run(START, text).peak <= MAX_REPORT_DEPTH
  {
    var depth, quoted, escaped := 0, false, false;
    var tokens, scalar := 0, false;
    ghost var peak := 0;
    var i := 0;
    while i < |text|
      invariant i <= |text|
      invariant Scan(depth, quoted, escaped, tokens, scalar, peak) == Run(START, text[..i])
      invariant tokens <= MAX_REPORT_VALUES && peak <= MAX_REPORT_DEPTH
    {
      var character := text[i];
      assert text[..i + 1][..i] == text[..i];
      assert Run(START, text[..i + 1]) == Next(Run(START, text[..i]), character);
      RunConcat(START, text[..i + 1], text[i + 1..]);
      assert text == text[..i + 1] + text[i + 1..];
      RunGrows(Run(START, text[..i + 1]), text[i + 1..]);
      i := i + 1;
      if quoted {
        if escaped {
          escaped := false;
        } else if character == '\\' {
          escaped := true;
        } else if character == '\"' {
          quoted := false;
        }
      } else if character == '\"' {
        quoted, tokens, scalar := true, tokens + 1, false;
      } else if character in "[{" {
        tokens, scalar, depth := tokens + 1, false, depth + 1;
        peak := Max(peak, depth);
        if depth > MAX_REPORT_DEPTH {
          return false;
        }
      } else if character in "]}" {
        depth, scalar := depth - 1, false;
      } else if IsSpace(character) || character in ",:" {
        scalar := false;
      } else if !scalar {
        tokens, scalar := tokens + 1, true;
      }
      if tokens > MAX_REPORT_VALUES {
        return false;
      }
    }
    assert text[..i] == text;
    ok := true;
  }

  // ----- The scanner on printed text -----

  lemma {:induction false} ScanBare(s: Scan, text: string)
    requires !s.quoted && !s.scalar && text != "" && forall c | c in text :: IsBare(c)
    ensures Run(s, text) == s.(tokens := s.tokens + 1, scalar := true)
  {
    assert IsBare(text[|text| - 1]);
    if |text| > 1 {
      ScanBare(s, text[..|text| - 1]);
    } else {
      assert text[..0] == "";
    }
  }

  lemma {:induction false} ScanSpace(s: Scan, text: string)
    requires !s.quoted && text != "" && forall c | c in text :: IsSpace(c)
    ensures Run(s, text) == s.(scalar := false)
  {
    assert IsSpace(text[|text| - 1]);
    if |text| > 1 {
      ScanSpace(s, text[..|text| - 1]);
    } else {
      assert text[..0] == "";
    }
  }

  /** Inside quotes, characters that need no escape leave the scanner where it is. */
  lemma {:induction false} ScanPlain(s: Scan, text: string)
    requires s.quoted && !s.escaped && '\\' !in text && '\"' !in text
    ensures Run(s, text) == s
  {
    if text != "" {
      assert text[|text| - 1] in text;
      ScanPlain(s, text[..|text| - 1]);
    }
  }

  lemma ScanTwo(s: Scan, a: char, b: char)
    ensures Run(s, [a, b]) == Next(Next(s, a), b)
  {
    hide Next;
    assert [a, b][..1] == [a];
    assert Run(s, [a]) == Next(s, a);
  }

  lemma ScanUnit(s: Scan, n: nat)
    requires s.quoted && !s.escaped && n < 0x1_0000
    ensures Run(s, Unit(n)) == s
  {
    var digits := [HexDigit(n / 4096), HexDigit(n / 256 % 16), HexDigit(n / 16 % 16), HexDigit(n % 16)];
    RunConcat(s, "\\u", digits);
    ScanTwo(s, '\\', 'u');
    ScanPlain(s, digits);
  }

  lemma ScanEscape(s: Scan, c: CodePoint)
    requires s.quoted && !s.escaped
    ensures Run(s, Escape(c)) == s
  {
    var text := Escape(c);
    if c >= 0x1_0000 {
      var high, low := 0xd800 + (c - 0x1_0000) / 1024, 0xdc00 + (c - 0x1_0000) % 1024;
      RunConcat(s, Unit(high), Unit(low));
      ScanUnit(s, high);
      ScanUnit(s, low);
    } else if |text| == 2 {
      ScanTwo(s, text[0], text[1]);
      assert text == [text[0], text[1]];
    } else if |text| == 1 {
      ScanPlain(s, text);
    } else {
      ScanUnit(s, c);
    }
  }

  lemma {:induction false} ScanEscaped(s: Scan, t: seq<CodePoint>)
    requires s.quoted && !s.escaped
    ensures Run(s, Escaped(t)) == s
  {
    if t != [] {
      RunConcat(s, Escaped(t[..|t| - 1]), Escape(t[|t| - 1]));
      ScanEscaped(s, t[..|t| - 1]);
      ScanEscape(s, t[|t| - 1]);
    }
  }

  /** Whatever a string holds, quotes and backslashes included, its text is one token. */
  lemma ScanQuote(s: Scan, t: seq<CodePoint>)
    requires !s.quoted && !s.escaped
    ensures Run(s, Quote(t)) == s.(tokens := s.tokens + 1, scalar := false)
  {
    var inside := Next(s, '\"');
    assert "\""[..0] == "";
    assert Run(s, "\"") == inside;
    RunConcat(s, "\"", Escaped(t));
    RunConcat(s, "\"" + Escaped(t), "\"");
    ScanEscaped(inside, t);
    assert Run(inside, "\"") == Next(inside, '\"');
  }

  predicate Breaks(nl: string) {
    nl == "\n" || nl == "\r\n"
  }

  /** A scanner ready for a value. */
  predicate Ready(s: Scan) {
    !s.quoted && !s.escaped && !s.scalar
  }

  /** What the scanner has after one whole value, whichever way that value is laid out. */
  function After(s: Scan, v: Json): Scan {
    s.(tokens := s.tokens + Tokens(v), peak := Max(s.peak, s.depth + Nesting(v)),
       scalar := v.Literal? || v.Integer? || v.Float? || v.NonFinite?)
  }

  /** The same after the first n children, whose container is already counted. */
  function AfterFirst(s: Scan, v: Json, n: nat): Scan
    requires n <= |v.Children()|
  {
    s.(tokens := s.tokens + SizeOfFirst(v, n, true) + (if v.Object? then n else 0),
       peak := Max(s.peak, s.depth + DepthOfFirst(v, n, true)),
       scalar := n > 0 && var last := v.Children()[n - 1]; last.Literal? || last.Integer? || last.Float? || last.NonFinite?)
  }

  lemma ScanBreak(s: Scan, level: nat, nl: string)
    requires Breaks(nl) && !s.quoted
    ensures Run(s, Break(level, nl)) == s.(scalar := false)
  {
    ScanSpace(s, Break(level, nl));
  }

  lemma ScanOne(s: Scan, c: char)
    ensures Run(s, [c]) == Next(s, c)
  {
    assert [c][..0] == "";
  }

  lemma ScanSeparators(s: Scan)
    requires !s.quoted
    ensures Run(s, "") == s
    ensures Run(s, ",") == s.(scalar := false)
    ensures Run(s, ": ") == s.(scalar := false)
  {
    ScanOne(s, ',');
    ScanTwo(s, ':', ' ');
  }

  /** Everything between two children counts exactly the key. */
  lemma ScanLead(s: Scan, v: Json, i: nat, level: nat, nl: string)
    requires Breaks(nl) && i < |v.Children()| && !s.quoted && !s.escaped && (i == 0 ==> !s.scalar)
    ensures Run(s, Lead(v, i, level, nl)) == s.(tokens := s.tokens + (if v.Object? then 1 else 0), scalar := false)
  {
    hide Next, Run, Quote, Break;
    var comma := if i > 0 then "," else "";
    var t := s.(scalar := false);
    ScanSeparators(s);
    RunConcat(s, comma, Break(level, nl));
    ScanBreak(t, level, nl);
    if v.Object? {
      var key := Quote(v.fields[i].key);
      RunConcat(s, comma + Break(level, nl), key + ": ");
      RunConcat(t, key, ": ");
      ScanQuote(t, v.fields[i].key);
      ScanSeparators(Run(t, key));
    } else {
      assert Lead(v, i, level, nl) == comma + Break(level, nl);
    }
  }

  /** Printing a value and scanning the text counts its tokens and its nesting exactly. */
  lemma {:induction false} ScanValue(s: Scan, v: Json, level: nat, nl: string)
    requires Breaks(nl) && Ready(s) && s.peak >= s.depth
    ensures Run(s, Print(v, level, nl)) == After(s, v)
    decreases v, |v.Children()| + 1
  {
    hide Next, Run, Quote, Decimal;
    assert !v.Container() ==> Tokens(v) == 1 + v.Keys() + SizeOfFirst(v, 0, true);
    match v
    case Literal(word) => ScanBare(s, word);
    case Integer(n) => ScanBare(s, Decimal(n));
    case Float(text) => ScanBare(s, text);
    case NonFinite => ScanBare(s, "null");
    case Text(t) => ScanQuote(s, t);
    case Array(items) => ScanContainer(s, v, level, nl, '[', ']');
    case Object(fields) => ScanContainer(s, v, level, nl, '{', '}');
  }

  lemma {:induction false} ScanContainer(s: Scan, v: Json, level: nat, nl: string, open: char, close: char)
    requires Breaks(nl) && Ready(s) && s.peak >= s.depth
    requires (v.Array? && open == '[' && close == ']') || (v.Object? && open == '{' && close == '}')
    ensures Run(s, Print(v, level, nl)) == After(s, v)
    decreases v, |v.Children()|, 1
  {
    var n := |v.Children()|;
    var inside := s.(tokens := s.tokens + 1, depth := s.depth + 1, peak := Max(s.peak, s.depth + 1));
    ScanBrackets(s, open, close);
    PrintContainer(v, level, nl, open, close);
    AfterContainer(s, inside, v);
    hide Next, Run, Print, After;
    if n > 0 {
      var body := PrintFirst(v, n, level + 1, nl);
      var full := AfterFirst(inside, v, n);
      ScanChildren(inside, v, n, level + 1, nl);
      ScanBreak(full, level, nl);
      ScanBrackets(full.(scalar := false), open, close);
      RunConcat(s, [open], body);
      RunConcat(s, [open] + body, Break(level, nl));
      RunConcat(s, [open] + body + Break(level, nl), [close]);
    }
  }

  lemma PrintContainer(v: Json, level: nat, nl: string, open: char, close: char)
    requires (v.Array? && open == '[' && close == ']') || (v.Object? && open == '{' && close == '}')
    ensures Print(v, level, nl)
         == if v.Children() == [] then [open, close]
            else [open] + PrintFirst(v, |v.Children()|, level + 1, nl) + Break(level, nl) + [close]
  {
    hide Break;
  }

  /** Closing a container leaves its children's count plus one for itself, one level further out. */
  lemma AfterContainer(s: Scan, inside: Scan, v: Json)
    requires v.Container() && Ready(s) && s.peak >= s.depth
    requires inside == s.(tokens := s.tokens + 1, depth := s.depth + 1, peak := Max(s.peak, s.depth + 1))
    ensures After(s, v) == AfterFirst(inside, v, |v.Children()|).(depth := s.depth, scalar := false)
  {
    assert Tokens(v) == 1 + v.Keys() + SizeOfFirst(v, |v.Children()|, true);
  }

  lemma ScanBrackets(s: Scan, open: char, close: char)
    requires Ready(s) && ((open == '[' && close == ']') || (open == '{' && close == '}'))
    ensures Run(s, [open]) == s.(tokens := s.tokens + 1, depth := s.depth + 1, peak := Max(s.peak, s.depth + 1))
    ensures Run(s, [close]) == s.(depth := s.depth - 1)
    ensures Run(s, [open, close]) == s.(tokens := s.tokens + 1, peak := Max(s.peak, s.depth + 1))
  {
    ScanOne(s, open);
    ScanOne(s, close);
    ScanTwo(s, open, close);
  }

  lemma {:induction false} ScanChildren(s: Scan, v: Json, n: nat, level: nat, nl: string)
    requires Breaks(nl) && Ready(s) && s.peak >= s.depth && n <= |v.Children()|
    ensures Run(s, PrintFirst(v, n, level, nl)) == AfterFirst(s, v, n)
    decreases v, n, 0
  {
    hide Next, Quote, Break, Print, Lead;
    if n > 0 {
      var before := AfterFirst(s, v, n - 1);
      var text := PrintFirst(v, n - 1, level, nl);
      var lead := Lead(v, n - 1, level, nl);
      var child := v.Children()[n - 1];
      ScanChildren(s, v, n - 1, level, nl);
      RunConcat(s, text, lead);
      ScanLead(before, v, n - 1, level, nl);
      RunConcat(s, text + lead, Print(child, level, nl));
      ScanValue(Run(before, lead), child, level, nl);
    }
  }

  // ----- Line ends and bytes -----

  /** What a text file holds: on Windows every LF is written as CR LF. */
  function Translate(t: string): string {
    if t == "" then ""
    else Translate(t[..|t| - 1]) + if t[|t| - 1] == '\n' then "\r\n" else [t[|t| - 1]]
  }

  function Newlines(t: string): nat {
    if t == "" then 0 else Newlines(t[..|t| - 1]) + if t[|t| - 1] == '\n' then 1 else 0
  }

  predicate Ascii(t: string) {
    forall c | c in t :: c <= '~'
  }

  lemma AsciiConcat(a: string, b: string)
    ensures Ascii(a + b) <==> Ascii(a) && Ascii(b)
  {
    if Ascii(a + b) {
      assert forall c | c in a :: c in a + b;
      assert forall c | c in b :: c in a + b;
    }
  }

  lemma {:induction false} TranslateConcat(a: string, b: string)
    ensures Translate(a + b) == Translate(a) + Translate(b)
    ensures Newlines(a + b) == Newlines(a) + Newlines(b)
    ensures Ascii(a + b) <==> Ascii(a) && Ascii(b)
  {
    AsciiConcat(a, b);
    if b == "" {
      assert a + b == a;
    } else {
      assert (a + b)[..|a + b| - 1] == a + b[..|b| - 1];
      TranslateConcat(a, b[..|b| - 1]);
    }
  }

  lemma {:induction false} TranslatedLength(t: string)
    ensures |Translate(t)| == |t| + Newlines(t)
  {
    if t != "" {
      TranslatedLength(t[..|t| - 1]);
    }
  }

  lemma {:induction false} TranslateNothing(t: string)
    requires '\n' !in t
    ensures Translate(t) == t
  {
    if t != "" {
      assert t[|t| - 1] in t;
      TranslateNothing(t[..|t| - 1]);
    }
  }

  lemma {:induction false} EscapedIsPlain(t: seq<CodePoint>)
    ensures Ascii(Escaped(t)) && '\n' !in Escaped(t)
  {
    if t != [] {
      EscapedIsPlain(t[..|t| - 1]);
      EscapeIsPlain(t[|t| - 1]);
      hide Escape;
    }
  }

  lemma EscapeIsPlain(c: CodePoint)
    ensures Ascii(Escape(c)) && '\n' !in Escape(c)
  {
    hide HexDigit;
  }

  lemma TranslateBreak(level: nat)
    ensures Translate(Break(level, "\n")) == Break(level, "\r\n")
    ensures Ascii(Break(level, "\n"))
  {
    var indent: string := seq(2 * level, _ => ' ');
    TranslateConcat("\n", indent);
    TranslateNothing(indent);
    assert "\n"[..0] == "";
    assert Translate("\n") == "\r\n";
  }

  lemma AsciiComma()
    ensures Ascii("") && Ascii(",")
  {
  }

  lemma TranslateLead(v: Json, i: nat, level: nat)
    requires i < |v.Children()|
    ensures Translate(Lead(v, i, level, "\n")) == Lead(v, i, level, "\r\n")
    ensures Ascii(Lead(v, i, level, "\n"))
  {
    hide Translate, Break;
    var comma := if i > 0 then "," else "";
    var key := if v.Object? then Quote(v.fields[i].key) + ": " else "";
    assert Ascii(key) && '\n' !in key by {
      if v.Object? {
        EscapedIsPlain(v.fields[i].key);
      }
    }
    hide Ascii, Quote;
    AsciiComma();
    TranslateNothing(comma);
    TranslateNothing(key);
    TranslateBreak(level);
    TranslateConcat(comma, Break(level, "\n"));
    TranslateConcat(comma + Break(level, "\n"), key);
  }

  /** A printed value is ASCII, and its only line feeds are those of the layout. */
  lemma {:induction false} TranslateValue(v: Json, level: nat)
    ensures Translate(Print(v, level, "\n")) == Print(v, level, "\r\n")
    ensures Ascii(Print(v, level, "\n"))
    decreases v, |v.Children()| + 1
  {
    hide Translate, Break, Quote;
    var n := |v.Children()|;
    if n > 0 {
      var open, close := if v.Array? then '[' else '{', if v.Array? then ']' else '}';
      var body, end := PrintFirst(v, n, level + 1, "\n"), Break(level, "\n");
      PrintContainer(v, level, "\n", open, close);
      PrintContainer(v, level, "\r\n", open, close);
      TranslateChildren(v, n, level + 1);
      TranslateBreak(level);
      TranslateNothing([open]);
      TranslateNothing([close]);
      TranslateConcat([open], body);
      TranslateConcat([open] + body, end);
      TranslateConcat([open] + body + end, [close]);
    } else {
      TranslateScalar(v, level);
    }
  }

  lemma TranslateScalar(v: Json, level: nat)
    requires v.Children() == []
    ensures Translate(Print(v, level, "\n")) == Print(v, level, "\r\n")
    ensures Ascii(Print(v, level, "\n"))
  {
    hide Decimal;
    var text := Print(v, level, "\n");
    if v.Text? {
      EscapedIsPlain(v.s);
    }
    assert Ascii(text) && '\n' !in text;
    TranslateNothing(text);
  }

  lemma {:induction false} TranslateChildren(v: Json, n: nat, level: nat)
    requires n <= |v.Children()|
    ensures Translate(PrintFirst(v, n, level, "\n")) == PrintFirst(v, n, level, "\r\n")
    ensures Ascii(PrintFirst(v, n, level, "\n"))
    decreases v, n
  {
    hide Translate, Lead, Print, PrintFirst, Ascii;
    if n == 0 {
      PrintNone(v, level);
    } else {
      TranslateChildren(v, n - 1, level);
      TranslateLead(v, n - 1, level);
      TranslateValue(v.Children()[n - 1], level);
      PrintNext(v, n - 1, level, "\n");
      PrintNext(v, n - 1, level, "\r\n");
      var text, lead, value :=
        PrintFirst(v, n - 1, level, "\n"), Lead(v, n - 1, level, "\n"), Print(v.Children()[n - 1], level, "\n");
      TranslateThree(text, lead, value);
    }
  }

  lemma PrintNone(v: Json, level: nat)
    ensures forall newline: string :: PrintFirst(v, 0, level, newline) == ""
    ensures Translate("") == "" && Ascii("")
  {
  }

  lemma PrintNext(v: Json, n: nat, level: nat, newline: string)
    requires n < |v.Children()|
    ensures PrintFirst(v, n + 1, level, newline)
         == PrintFirst(v, n, level, newline) + Lead(v, n, level, newline) + Print(v.Children()[n], level, newline)
  {
    hide Lead, Print;
  }

  lemma TranslateThree(a: string, b: string, c: string)
    ensures Translate(a + b + c) == Translate(a) + Translate(b) + Translate(c)
    ensures Ascii(a + b + c) <==> Ascii(a) && Ascii(b) && Ascii(c)
  {
    hide Translate, Ascii;
    TranslateConcat(a, b);
    TranslateConcat(a + b, c);
  }
}
