/** The exception list: its line-based parser, and a printer the parser inverts. */
module Exceptions {
  import opened Wrappers
  import opened Text

  type Record = map<string, string>

  /** A dash item without a colon, which the parser cannot split. */
  datatype ParseError = NoColon(line: string)

  /** One pair of matching quotes is removed; a lone quote character counts as such a pair. */
  function Unquote(value: string): string {
    if Enclosed(value, '"') || Enclosed(value, '\'') then (if |value| >= 2 then value[1..|value| - 1] else "") else value
  }

  /** `key: value`, split at the first colon. */
  function SplitKv(line: string): (string, string)
    requires ':' in line
  {
    var k := Find(line, ':');
    var value := Strip(line[k + 1..]);
    (Strip(line[..k]), Unquote(value))
  }

  datatype State = State(closed: seq<Record>, current: Option<Record>)

  /** The records once the open one, if it has any field, is closed. */
  function Close(st: State): seq<Record> {
    if st.current.Some? && |st.current.value| > 0 then st.closed + [st.current.value] else st.closed
  }

  /** Starts with a dash and a space. */
  predicate IsDash(line: string) {
    |line| >= 2 && line[0] == '-' && line[1] == ' '
  }

  /** What the parser takes a raw line for. */
  datatype Kind = Ignored | Dash(item: string) | Plain(line: string)

  function Classify(raw: string): Kind {
    var line := Strip(raw);
    if line == "" || Opens(line, '#') || StartsWith(line, "version:") || StartsWith(line, "exceptions:") then Ignored
    else if IsDash(line) then Dash(Strip(line[2..]))
    else Plain(line)
  }

  function Field(record: Record, line: string): Record
    requires ':' in line
  {
    record[SplitKv(line).0 := SplitKv(line).1]
  }

  /** What one raw line does to the state. */
  function Step(st: State, raw: string): Result<State, ParseError> {
    match Classify(raw)
    case Ignored => Success(st)
    case Dash(item) =>
      if item == "" then Success(State(Close(st), Some(map[])))
      else if ':' !in item then Failure(NoColon(item))
      else Success(State(Close(st), Some(Field(map[], item))))
    case Plain(line) =>
      if st.current.Some? && ':' in line then Success(State(st.closed, Some(Field(st.current.value, line)))) else Success(st)
  }

  function Run(st: State, lines: seq<string>): Result<State, ParseError> {
    if lines == [] then Success(st)
    else
      var before := Run(st, lines[..|lines| - 1]);
      if before.Failure? then before else Step(before.value, lines[|lines| - 1])
  }

  const Start := State([], None)

  function Parsed(lines: seq<string>): Result<seq<Record>, ParseError> {
    var end := Run(Start, lines);
    if end.Failure? then Failure(end.error) else Success(Close(end.value))
  }

  method ParseExceptions(lines: seq<string>) returns (r: Result<seq<Record>, ParseError>)
    ensures r == Parsed(lines)
  {
    var exceptions: seq<Record> := [];
    var current: Option<Record> := None;
    for i := 0 to |lines|
      invariant Run(Start, lines[..i]) == Success(State(exceptions, current))
    {
      assert lines[..i + 1][..i] == lines[..i];
      if Step(State(exceptions, current), lines[i]).Failure? {
        RunStaysFailed(Start, lines, i + 1);
      }
      var line := Strip(lines[i]);
      if line == "" || Opens(line, '#') {
        continue;
      }
      if StartsWith(line, "version:") || StartsWith(line, "exceptions:") {
        continue;
      }
      if IsDash(line) {
        if current.Some? && |current.value| > 0 {
          exceptions := exceptions + [current.value];
        }
        current := Some(map[]);
        line := Strip(line[2..]);
        if line != "" {
          if ':' !in line {
            return Failure(NoColon(line));
          }
          var (key, value) := SplitKv(line);
          current := Some(current.value[key := value]);
        }
        continue;
      }
      if current.Some? && ':' in line {
        var (key, value) := SplitKv(line);
        current := Some(current.value[key := value]);
      }
    }
    assert lines[..|lines|] == lines;
    if current.Some? && |current.value| > 0 {
      exceptions := exceptions + [current.value];
    }
    return Success(exceptions);
  }

  lemma {:induction false} RunStaysFailed(st: State, lines: seq<string>, k: nat)
    requires k <= |lines| && Run(st, lines[..k]).Failure?
    ensures Run(st, lines) == Run(st, lines[..k])
    decreases |lines| - k
  {
    if k == |lines| {
      assert lines[..k] == lines;
    } else {
      assert lines[..k + 1][..k] == lines[..k];
      RunStaysFailed(st, lines, k + 1);
    }
  }

  lemma {:induction false} RunAppend(st: State, a: seq<string>, b: seq<string>)
    requires Run(st, a).Success?
    ensures Run(st, a + b) == Run(Run(st, a).value, b)
  {
    if b == [] {
      assert a + b == a;
    } else {
      assert (a + b)[..|a + b| - 1] == a + b[..|b| - 1];
      RunAppend(st, a, b[..|b| - 1]);
    }
  }

  // ----- What a dash line does

  /** Once a line is recognised as a dash item, text follows the dash: the branch that would open an
      empty record is never taken. */
  lemma {:induction false} DashItemHasText(raw: string)
    requires Classify(raw).Dash?
    ensures Classify(raw).item != ""
  {
    var line := Strip(raw);
    StripTrims(raw);
    assert line[0] == '-' && line[1] == ' ';
    var rest := line[2..];
    LStripKeepsLast(rest);
  }

  lemma {:induction false} LStripKeepsLast(s: string)
    requires s != [] && !IsSpace(s[|s| - 1])
    ensures LStrip(s) != [] && LStrip(s)[|LStrip(s)| - 1] == s[|s| - 1]
  {
    if IsSpace(s[0]) {
      LStripKeepsLast(s[1..]);
    }
  }

  lemma {:induction false} RunFailedAppend(st: State, a: seq<string>, b: seq<string>)
    requires Run(st, a).Failure?
    ensures Run(st, a + b) == Run(st, a)
  {
    RunStaysFailed(st, a + b, |a|);
    assert (a + b)[..|a|] == a;
  }

  lemma {:induction false} RemovableAnywhere(a: seq<string>, raw: string, b: seq<string>)
    requires forall st :: Step(st, raw) == Success(st)
    ensures Parsed(a + [raw] + b) == Parsed(a + b)
  {
    if Run(Start, a).Success? {
      RunAppend(Start, a, [raw]);
      assert [raw][..0] == [];
      assert Run(Run(Start, a).value, [raw]) == Run(Start, a);
      RunAppend(Start, a + [raw], b);
      RunAppend(Start, a, b);
    } else {
      RunFailedAppend(Start, a, [raw] + b);
      assert a + [raw] + b == a + ([raw] + b);
      RunFailedAppend(Start, a, b);
    }
  }

  /** Blank lines, comments, the header's lines and lines that are neither dash items nor have a colon can stand
      anywhere without effect. */
  lemma {:induction false} LineWithoutEffect(a: seq<string>, raw: string, b: seq<string>)
    requires var line := Strip(raw);
      || line == "" || line[0] == '#' || "version:" <= line || "exceptions:" <= line
      || (':' !in line && !(|line| >= 2 && line[0] == '-' && line[1] == ' '))
    ensures Parsed(a + [raw] + b) == Parsed(a + b)
  {
    RemovableAnywhere(a, raw, b);
  }

  /** Before the first dash item every other line is passed over, whatever it says. */
  lemma {:induction false} NothingBeforeTheFirstItem(raw: string, b: seq<string>)
    requires var line := Strip(raw); !(|line| >= 2 && line[0] == '-' && line[1] == ' ')
    ensures Parsed([raw] + b) == Parsed(b)
  {
    assert [raw][..0] == [];
    assert Run(Start, [raw]) == Success(Start);
    RunAppend(Start, [raw], b);
  }

  /** A dash on a line of its own does nothing, so it does not separate records: the fields written
      below it go to the record above it. */
  lemma {:induction false} BareDashSeparatesNothing(a: seq<string>, dash: string, b: seq<string>)
    requires Strip(dash) == "-"
    ensures Parsed(a + [dash] + b) == Parsed(a + b)
  {
    LineWithoutEffect(a, dash, b);
  }

  predicate Unsplittable(raw: string) {
    Classify(raw).Dash? && ':' !in Classify(raw).item
  }

  /** Parsing fails exactly when some dash item has no colon. */
  lemma {:induction false} ParsingFailsExactly(lines: seq<string>)
    ensures Parsed(lines).Failure? <==> AnyUnsplittable(lines)
  {
    RunFailsExactly(Start, lines);
  }

  lemma {:induction false} StepFailsExactly(st: State, raw: string)
    ensures Step(st, raw).Failure? <==> Unsplittable(raw)
  {
    if Classify(raw).Dash? {
      DashItemHasText(raw);
    }
  }

  ghost predicate AnyUnsplittable(lines: seq<string>) {
    exists i | 0 <= i < |lines| :: Unsplittable(lines[i])
  }

  lemma {:induction false} RunFailsExactly(st: State, lines: seq<string>)
    ensures Run(st, lines).Failure? <==> AnyUnsplittable(lines)
  {
    if lines != [] {
      var n := |lines| - 1;
      RunFailsExactly(st, lines[..n]);
      if Run(st, lines[..n]).Success? {
        StepFailsExactly(Run(st, lines[..n]).value, lines[n]);
      }
      AnyUnsplittableStep(lines);
    }
  }

  lemma {:induction false} AnyUnsplittableStep(lines: seq<string>)
    requires lines != []
    ensures AnyUnsplittable(lines) <==> AnyUnsplittable(lines[..|lines| - 1]) || Unsplittable(lines[|lines| - 1])
  {
    var front := lines[..|lines| - 1];
    assert forall i | 0 <= i < |front| :: front[i] == lines[i];
    if AnyUnsplittable(front) {
      var i :| 0 <= i < |front| && Unsplittable(front[i]);
      assert Unsplittable(lines[i]);
    }
  }

  // ----- The printer

  /** A value may be written as it is, or between quotes of either kind. */
  datatype Style = Bare | Single | Double

  type Item = seq<(string, string, Style)>

  function Written(value: string, style: Style): string {
    match style
    case Bare => value
    case Single => "'" + value + "'"
    case Double => "\"" + value + "\""
  }

  /** What follows the colon. */
  function After(value: string, style: Style): string {
    if Written(value, style) == "" then "" else " " + Written(value, style)
  }

  function PrintPair(key: string, value: string, style: Style): string {
    key + (":" + After(value, style))
  }

  function FirstLine(field: (string, string, Style)): string {
    "  - " + PrintPair(field.0, field.1, field.2)
  }

  function LaterLine(field: (string, string, Style)): string {
    "    " + PrintPair(field.0, field.1, field.2)
  }

  function PrintItem(item: Item): (lines: seq<string>)
    ensures |lines| == |item|
  {
    seq(|item|, i requires 0 <= i < |item| => if i == 0 then FirstLine(item[i]) else LaterLine(item[i]))
  }

  const HEADER := ["version: 1", "exceptions:"]

  function PrintItems(items: seq<Item>): seq<string> {
    if items == [] then HEADER else PrintItems(items[..|items| - 1]) + PrintItem(items[|items| - 1])
  }

  /** The fields of an item; a repeated key keeps its last value. */
  function ToRecord(item: Item): Record {
    if item == [] then map[] else ToRecord(item[..|item| - 1])[item[|item| - 1].0 := item[|item| - 1].1]
  }

  function ToRecords(items: seq<Item>): (r: seq<Record>)
    ensures |r| == |items|
  {
    seq(|items|, i requires 0 <= i < |items| => ToRecord(items[i]))
  }

  predicate PrintableKey(key: string) {
    ':' !in key && Trimmed(key) && NoNewline(key)
  }

  /** Starts and ends with a quote of the same kind. */
  predicate InQuotes(value: string) {
    value != "" && (value[0] == '"' || value[0] == '\'') && value[|value| - 1] == value[0]
  }

  /** Between quotes any value can be written; bare, one without spaces at its ends that is not in quotes itself. */
  predicate Writable(value: string, style: Style) {
    style.Bare? ==> Trimmed(value) && !InQuotes(value)
  }

  /** A continuation line with this key is neither a comment, nor a header, nor a dash item. */
  predicate PrintableLater(key: string) {
    !Opens(key, '#') && !IsDash(key) && key != "version" && key != "exceptions"
  }

  predicate Printable(item: Item) {
    && item != []
    && (forall i | 0 <= i < |item| :: PrintableKey(item[i].0) && NoNewline(item[i].1) && Writable(item[i].1, item[i].2))
    && (forall i | 0 < i < |item| :: PrintableLater(item[i].0))
  }

  lemma {:induction false} FindAfter(key: string, rest: string)
    requires ':' !in key
    ensures Find(key + (":" + rest), ':') == |key|
  {
    var line := key + (":" + rest);
    assert line[|key|] == ':';
    var k := Find(line, ':');
    assert forall i | 0 <= i < |key| :: line[i] == key[i] && key[i] in key;
  }

  /** A value comes back from behind the colon exactly if it can be written in that style. */
  lemma {:induction false} ReadsBackExactly(value: string, style: Style)
    ensures Unquote(Strip(After(value, style))) == value <==> Writable(value, style)
  {
    var written := Written(value, style);
    match style
    case Bare =>
      StripAfter(written);
      BareReadsBack(value);
    case Single =>
      assert written[0] == '\'' && written[|written| - 1] == '\'' && written[1..|written| - 1] == value;
      StripIndented(" ", written);
    case Double =>
      assert written[0] == '"' && written[|written| - 1] == '"' && written[1..|written| - 1] == value;
      StripIndented(" ", written);
  }

  lemma {:induction false} StripAfter(written: string)
    ensures Strip(" " + written) == Strip(written)
  {
    assert (" " + written)[1..] == written;
  }

  lemma {:induction false} BareReadsBack(value: string)
    ensures Unquote(Strip(value)) == value <==> Trimmed(value) && !InQuotes(value)
  {
    if Trimmed(value) {
      StripTrimmed(value);
    } else {
      StripShorter(value);
    }
  }

  lemma {:induction false} SplitAt(key: string, rest: string)
    requires ':' !in key
    ensures var line := key + (":" + rest); ':' in line && SplitKv(line) == (Strip(key), Unquote(Strip(rest)))
  {
    var line := key + (":" + rest);
    FindAfter(key, rest);
    assert line[..|key|] == key && line[|key| + 1..] == rest;
  }

  lemma {:induction false} SplitPrinted(key: string, value: string, style: Style)
    requires PrintableKey(key) && Writable(value, style)
    ensures var line := PrintPair(key, value, style); ':' in line && SplitKv(line) == (key, value)
  {
    SplitAt(key, After(value, style));
    ReadsBackExactly(value, style);
    StripTrimmed(key);
  }

  /** Spaces around the key and around the value as written make no difference. */
  lemma {:induction false} SpacesAreTakenOff(key: string, value: string, style: Style, a: string, b: string, c: string, d: string)
    requires Blank(a) && Blank(b) && Blank(c) && Blank(d)
    requires PrintableKey(key) && Writable(value, style)
    ensures var line := (a + key + b) + (":" + (c + Written(value, style) + d));
      ':' in line && SplitKv(line) == (key, value)
  {
    var written := Written(value, style);
    assert ':' !in a + key + b;
    SplitAt(a + key + b, c + written + d);
    StripSpaced(a, key, b);
    assert Trimmed(written);
    StripSpaced(c, written, d);
    ReadsBackExactly(value, style);
    StripAfter(written);
    StripTrimmed(written);
  }

  lemma {:induction false} TrimmedPrinted(key: string, value: string, style: Style)
    requires PrintableKey(key) && Writable(value, style)
    ensures Trimmed(PrintPair(key, value, style)) && PrintPair(key, value, style) != ""
  {
    var line, written := PrintPair(key, value, style), Written(value, style);
    assert line[|line| - 1] == if written == "" then ':' else written[|written| - 1];
    assert line[0] == if key == "" then ':' else key[0];
  }

  /** A line starts with a header word and a colon exactly when its key is that word. */
  lemma {:induction false} HeaderPrefix(key: string, rest: string, header: string)
    requires ':' !in key && ':' !in header
    ensures header + ":" <= key + (":" + rest) <==> key == header
  {
    var line, prefix := key + (":" + rest), header + ":";
    FindAfter(key, rest);
    FindAfter(header, "");
    assert prefix == header + (":" + "");
    if prefix <= line {
      assert line[|header|] == prefix[|header|] == ':';
      assert forall i | 0 <= i < |header| :: line[i] == prefix[i] != ':';
      assert |key| == |header|;
      assert line[..|header|] == prefix[..|header|];
    }
    if key == header {
      assert line[..|prefix|] == prefix;
    }
  }

  /** How a printed continuation pair is classified depends on its key alone. */
  lemma {:induction false} ClassifyPrinted(key: string, value: string, style: Style)
    requires PrintableKey(key) && Writable(value, style)
    ensures var pair := PrintPair(key, value, style); var kind := Classify("    " + pair);
      && (PrintableLater(key) ==> kind == Plain(pair))
      && (!PrintableLater(key) ==> !kind.Plain?)
  {
    var pair := PrintPair(key, value, style);
    var rest := After(value, style);
    TrimmedPrinted(key, value, style);
    StripIndented("    ", pair);
    HeaderPrefix(key, rest, "version");
    HeaderPrefix(key, rest, "exceptions");
    assert "version" + ":" == "version:" && "exceptions" + ":" == "exceptions:";
    ShortPrefixes(key, rest);
  }

  lemma {:induction false} ShortPrefixes(key: string, rest: string)
    requires ':' !in key
    ensures Opens(key + (":" + rest), '#') <==> Opens(key, '#')
    ensures IsDash(key + (":" + rest)) <==> IsDash(key)
  {
    var line := key + (":" + rest);
    assert line[|key|] == ':';
    assert forall i | 0 <= i < |key| :: line[i] == key[i];
  }

  lemma {:induction false} StepFirst(st: State, key: string, value: string, style: Style)
    requires PrintableKey(key) && Writable(value, style)
    ensures Step(st, "  - " + PrintPair(key, value, style)) == Success(State(Close(st), Some(map[key := value])))
  {
    var pair := PrintPair(key, value, style);
    ClassifyFirst(key, value, style);
    SplitPrinted(key, value, style);
  }

  lemma {:induction false} ClassifyFirst(key: string, value: string, style: Style)
    requires PrintableKey(key) && Writable(value, style)
    ensures Classify("  - " + PrintPair(key, value, style)) == Dash(PrintPair(key, value, style)) && PrintPair(key, value, style) != ""
  {
    var pair := PrintPair(key, value, style);
    TrimmedPrinted(key, value, style);
    var line := "- " + pair;
    assert "  - " + pair == "  " + line;
    assert line[0] == '-' && line[|line| - 1] == pair[|pair| - 1];
    StripIndented("  ", line);
    assert line[..2] == "- " && line[2..] == pair;
    StripTrimmed(pair);
  }

  /** A printed continuation pair is read back as that field exactly when its key cannot be taken for
      a comment, a header or a dash. */
  lemma {:induction false} StepLater(st: State, key: string, value: string, style: Style)
    requires PrintableKey(key) && Writable(value, style) && st.current.Some? && st.current.value != map[]
    requires !(key in st.current.value && st.current.value[key] == value)
    ensures Step(st, "    " + PrintPair(key, value, style)) == Success(State(st.closed, Some(st.current.value[key := value])))
      <==> PrintableLater(key)
  {
    ClassifyPrinted(key, value, style);
    SplitPrinted(key, value, style);
    StepPair(st, "    " + PrintPair(key, value, style), PrintPair(key, value, style), key, value);
  }

  /** A raw line is read as a field of the open record exactly when it is taken for a plain line. */
  lemma {:induction false} StepPair(st: State, raw: string, pair: string, key: string, value: string)
    requires st.current.Some? && st.current.value != map[]
    requires !(key in st.current.value && st.current.value[key] == value)
    requires ':' in pair && SplitKv(pair) == (key, value) && (Classify(raw).Plain? ==> Classify(raw) == Plain(pair))
    ensures Step(st, raw) == Success(State(st.closed, Some(st.current.value[key := value]))) <==> Classify(raw).Plain?
  {
    var record := st.current.value;
    assert record[key := value][key] == value;
    assert |record| > 0;
    match Classify(raw) {
      case Ignored =>
      case Dash(_) => assert |Close(st)| == |st.closed| + 1;
      case Plain(_) =>
    }
  }

  lemma {:induction false} RunSnoc(st: State, lines: seq<string>, raw: string)
    requires Run(st, lines).Success?
    ensures Run(st, lines + [raw]) == Step(Run(st, lines).value, raw)
  {
    assert (lines + [raw])[..|lines|] == lines;
  }

  lemma {:induction false} ToRecordSnoc(item: Item, field: (string, string, Style))
    ensures ToRecord(item + [field]) == ToRecord(item)[field.0 := field.1]
  {
    assert (item + [field])[..|item|] == item;
  }

  lemma {:induction false} PrefixSnoc<T>(s: seq<T>, n: nat)
    requires 0 < n <= |s|
    ensures s[..n] == s[..n - 1] + [s[n - 1]]
  {
  }

  lemma {:induction false} RunItem(st: State, item: Item, n: nat)
    requires Printable(item) && 0 < n <= |item|
    ensures Run(st, PrintItem(item)[..n]) == Success(State(Close(st), Some(ToRecord(item[..n]))))
  {
    var before, last := PrintItem(item)[..n - 1], PrintItem(item)[n - 1];
    var field := item[n - 1];
    PrefixSnoc(PrintItem(item), n);
    PrefixSnoc(item, n);
    ToRecordSnoc(item[..n - 1], field);
    if n == 1 {
      RunSnoc(st, before, last);
      StepFirst(st, field.0, field.1, field.2);
    } else {
      RunItem(st, item, n - 1);
      RunSnoc(st, before, last);
      LaterField(State(Close(st), Some(ToRecord(item[..n - 1]))), field);
    }
  }

  lemma {:induction false} LaterField(st: State, field: (string, string, Style))
    requires PrintableKey(field.0) && Writable(field.1, field.2) && PrintableLater(field.0) && st.current.Some?
    ensures Step(st, LaterLine(field)) == Success(State(st.closed, Some(st.current.value[field.0 := field.1])))
  {
    ClassifyPrinted(field.0, field.1, field.2);
    SplitPrinted(field.0, field.1, field.2);
  }

  lemma {:induction false} RunHeader()
    ensures Run(Start, HEADER) == Success(Start)
  {
    StripTrimmed("version: 1");
    StripTrimmed("exceptions:");
    assert "version: 1"[..8] == "version:";
    assert HEADER[..1][..0] == [];
    assert Run(Start, HEADER[..1]) == Success(Start);
  }

  lemma {:induction false} RunWholeItem(st: State, item: Item)
    requires Printable(item)
    ensures Run(st, PrintItem(item)) == Success(State(Close(st), Some(ToRecord(item)))) && |ToRecord(item)| > 0
  {
    RunItem(st, item, |item|);
    assert PrintItem(item)[..|item|] == PrintItem(item) && item[..|item|] == item;
    assert item[|item| - 1].0 in ToRecord(item);
  }

  lemma {:induction false} AddItem(before: seq<string>, item: Item)
    requires Run(Start, before).Success? && Printable(item)
    ensures Run(Start, before + PrintItem(item)).Success?
    ensures Close(Run(Start, before + PrintItem(item)).value) == Close(Run(Start, before).value) + [ToRecord(item)]
  {
    RunAppend(Start, before, PrintItem(item));
    RunWholeItem(Run(Start, before).value, item);
  }

  lemma {:induction false} ToRecordsSnoc(items: seq<Item>, last: Item)
    ensures ToRecords(items + [last]) == ToRecords(items) + [ToRecord(last)]
  {
  }

  lemma {:induction false} RunItems(items: seq<Item>)
    requires forall i | 0 <= i < |items| :: Printable(items[i])
    ensures Run(Start, PrintItems(items)).Success?
    ensures Close(Run(Start, PrintItems(items)).value) == ToRecords(items)
  {
    if items == [] {
      RunHeader();
    } else {
      var front, last := items[..|items| - 1], items[|items| - 1];
      RunItems(front);
      AddItem(PrintItems(front), last);
      ToRecordsSnoc(front, last);
      assert items == front + [last];
    }
  }

  lemma {:induction false} PrintedPairIsALine(indent: string, key: string, value: string, style: Style)
    requires NoNewline(indent) && NoNewline(key) && NoNewline(value)
    ensures NoNewline(indent + PrintPair(key, value, style))
  {
    var written := Written(value, style);
    NoNewlineAppend("'", value);
    NoNewlineAppend("'" + value, "'");
    NoNewlineAppend("\"", value);
    NoNewlineAppend("\"" + value, "\"");
    NoNewlineAppend(" ", written);
    NoNewlineAppend(":", After(value, style));
    NoNewlineAppend(key, ":" + After(value, style));
    NoNewlineAppend(indent, PrintPair(key, value, style));
  }

  lemma {:induction false} NoNewlineAppend(a: string, b: string)
    requires NoNewline(a) && NoNewline(b)
    ensures NoNewline(a + b)
  {
  }

  lemma {:induction false} PrintedItemIsLines(item: Item)
    requires Printable(item)
    ensures forall k | 0 <= k < |item| :: NoNewline(PrintItem(item)[k])
  {
    forall k | 0 <= k < |item| ensures NoNewline(PrintItem(item)[k]) {
      PrintedPairIsALine(if k == 0 then "  - " else "    ", item[k].0, item[k].1, item[k].2);
    }
  }

  lemma {:induction false} PrintedLinesAreLines(items: seq<Item>)
    requires forall i | 0 <= i < |items| :: Printable(items[i])
    ensures forall k | 0 <= k < |PrintItems(items)| :: NoNewline(PrintItems(items)[k])
  {
    if items != [] {
      PrintedLinesAreLines(items[..|items| - 1]);
      PrintedItemIsLines(items[|items| - 1]);
    }
  }

  /** Printing any list of non-empty items, each value bare or in quotes of either kind, and reading the text back
      yields the same records, whatever colons and quotes the values contain and however lines end. */
  lemma {:induction false} ParsingInvertsPrinting(items: seq<Item>, end: string)
    requires (forall i | 0 <= i < |items| :: Printable(items[i])) && EndsLine(end)
    ensures Parsed(Lines(Unlines(PrintItems(items), end))) == Success(ToRecords(items))
  {
    PrintedLinesAreLines(items);
    LinesOfUnlines(PrintItems(items), end);
    RunItems(items);
  }
}
