/** The release environment file: KEY=VALUE lines, quoted or not, with comments. */
module EnvFile {
  import opened Results
  import opened Text

  datatype Reason = NotAnAssignment | UnsupportedSyntax | UnterminatedQuote | ContentAfterQuote

  datatype Error = Error(line: nat, reason: Reason)

  // ---------- Lines ----------

  /** The boundaries of str.splitlines; a carriage return and a line feed together are one. */
  predicate IsBreak(c: char) {
    10 <= c as int <= 13 || 0x1C <= c as int <= 0x1E || c as int in {0x85, 0x2028, 0x2029}
  }

  lemma {:induction false} LineBreaksAre(c: char)
    ensures IsBreak(c) <==> c as int in {0xA, 0xB, 0xC, 0xD, 0x1C, 0x1D, 0x1E, 0x85, 0x2028, 0x2029}
  {
  }

  predicate OneLine(s: string) {
    forall i :: 0 <= i < |s| ==> !IsBreak(s[i])
  }

  function LineLength(text: string): (n: nat)
    ensures n <= |text| && OneLine(text[..n])
    ensures n < |text| ==> IsBreak(text[n])
  {
    if text == [] || IsBreak(text[0]) then 0 else 1 + LineLength(text[1..])
  }

  function SplitLines(text: string): seq<string>
    decreases |text|
  {
    var n := LineLength(text);
    if text == [] then []
    else if n == |text| then [text]
    else
      var broken := if text[n] == '\r' && n + 1 < |text| && text[n + 1] == '\n' then 2 else 1;
      [text[..n]] + SplitLines(text[n + broken..])
  }

  /** How a line may end: a line feed, a carriage return, or both. */
  predicate IsEnding(ending: string) {
    ending == "\n" || ending == "\r" || ending == "\r\n"
  }

  function Print(lines: seq<string>, ending: string): string {
    if lines == [] then [] else lines[0] + (ending + Print(lines[1..], ending))
  }

  lemma {:induction false} LineLengthIs(line: string, rest: string)
    requires OneLine(line) && rest != "" && IsBreak(rest[0])
    ensures LineLength(line + rest) == |line|
  {
    if line != [] {
      assert (line + rest)[1..] == line[1..] + rest;
      LineLengthIs(line[1..], rest);
    } else {
      assert line + rest == rest;
    }
  }

  /** A printed line starts with something that is no line feed, or with its ending. */
  lemma PrintedStarts(lines: seq<string>, ending: string)
    requires IsEnding(ending) && forall i :: 0 <= i < |lines| ==> OneLine(lines[i])
    ensures ending == "\r" && Print(lines, ending) != "" ==> Print(lines, ending)[0] != '\n'
  {
    if lines != [] && lines[0] != "" {
      assert !IsBreak(lines[0][0]);
    }
  }

  lemma {:induction false} JoinedParts(line: string, ending: string, rest: string)
    requires ending != ""
    ensures var text := line + (ending + rest);
            && |text| == |line| + |ending| + |rest| && text[..|line|] == line && text[|line|] == ending[0]
            && text[|line| + |ending|..] == rest
            && (|line| + 1 < |text| ==> text[|line| + 1] == if |ending| > 1 then ending[1] else rest[0])
  {
  }

  lemma {:induction false} FirstLineSplits(line: string, ending: string, rest: string)
    requires OneLine(line) && IsEnding(ending) && (ending == "\r" && rest != "" ==> rest[0] != '\n')
    ensures SplitLines(line + (ending + rest)) == [line] + SplitLines(rest)
  {
    var text := line + (ending + rest);
    LineLengthIs(line, ending + rest);
    JoinedParts(line, ending, rest);
    var broken := if text[|line|] == '\r' && |line| + 1 < |text| && text[|line| + 1] == '\n' then 2 else 1;
    assert broken == |ending|;
    assert SplitLines(text) == [text[..|line|]] + SplitLines(text[|line| + broken..]);
  }

  lemma {:induction false} PrintedLinesSplit(lines: seq<string>, ending: string)
    requires IsEnding(ending) && forall i :: 0 <= i < |lines| ==> OneLine(lines[i])
    ensures SplitLines(Print(lines, ending)) == lines
  {
    if lines != [] {
      PrintedLinesSplit(lines[1..], ending);
      PrintedStarts(lines[1..], ending);
      FirstLineSplits(lines[0], ending, Print(lines[1..], ending));
      assert lines == [lines[0]] + lines[1..];
    }
  }

  // ---------- Values ----------

  function StripSpace(s: string): string {
    Strip(s, IsPythonSpace)
  }

  predicate HasEscape(s: string) {
    '$' in s || '\\' in s
  }

  predicate IsQuote(c: char) {
    c == '"' || c == '\''
  }

  /** A # after white space starts a comment in an unquoted value. */
  predicate StartsComment(value: string, i: nat)
    requires i < |value|
  {
    value[i] == '#' && i > 0 && IsPythonSpace(value[i - 1])
  }

  function CommentStart(value: string, i: nat): (n: nat)
    requires i <= |value|
    ensures i <= n <= |value| && (n < |value| ==> StartsComment(value, n))
    ensures forall k :: i <= k < n ==> !StartsComment(value, k)
    decreases |value| - i
  {
    if i == |value| || StartsComment(value, i) then i else CommentStart(value, i + 1)
  }

  /** The opening quote again, with no backslash before it. */
  predicate Closes(value: string, i: nat)
    requires 0 < i < |value|
  {
    value[i] == value[0] && value[i - 1] != '\\'
  }

  function ClosingQuote(value: string, i: nat): (n: nat)
    requires 1 <= i <= |value|
    ensures i <= n <= |value| && (n < |value| ==> Closes(value, n))
    ensures forall k :: i <= k < n ==> !Closes(value, k)
    decreases |value| - i
  {
    if i == |value| || Closes(value, i) then i else ClosingQuote(value, i + 1)
  }

  function UnquotedValue(value: string): string {
    TrimRight(value[..CommentStart(value, 0)], IsPythonSpace)
  }

  function ParseValue(raw: string): Result<string, Reason> {
    var value := StripSpace(raw);
    if value == "" then Ok("")
    else if HasEscape(value) then Err(UnsupportedSyntax)
    else if !IsQuote(value[0]) then Ok(UnquotedValue(value))
    else
      var closing := ClosingQuote(value, 1);
      if closing == |value| then Err(UnterminatedQuote)
      else
        var remainder := StripSpace(value[closing + 1..]);
        if remainder != "" && remainder[0] != '#' then Err(ContentAfterQuote) else Ok(value[1..closing])
  }

  method ParseEnvValue(raw: string) returns (r: Result<string, Reason>)
    ensures r == ParseValue(raw)
  {
    var value := StripSpace(raw);
    if value == "" {
      return Ok("");
    }
    if HasEscape(value) {
      return Err(UnsupportedSyntax);
    }
    if !IsQuote(value[0]) {
      var index := 0;
      while index < |value| && !StartsComment(value, index)
        invariant 0 <= index <= |value|
        invariant CommentStart(value, 0) == CommentStart(value, index)
      {
        index := index + 1;
      }
      return Ok(TrimRight(value[..index], IsPythonSpace));
    }
    var closing := 1;
    while closing < |value| && !Closes(value, closing)
      invariant 1 <= closing <= |value|
      invariant ClosingQuote(value, 1) == ClosingQuote(value, closing)
    {
      closing := closing + 1;
    }
    if closing >= |value| {
      return Err(UnterminatedQuote);
    }
    var remainder := StripSpace(value[closing + 1..]);
    if remainder != "" && remainder[0] != '#' {
      return Err(ContentAfterQuote);
    }
    return Ok(value[1..closing]);
  }

  // ---------- Assignments ----------

  const EXPORT := "export "

  function IndexOf(s: string, c: char): (n: nat)
    ensures n <= |s| && c !in s[..n]
    ensures n < |s| ==> s[n] == c
  {
    if s == [] || s[0] == c then 0 else 1 + IndexOf(s[1..], c)
  }

  /** None for a blank line or a comment. */
  function ParseLine(raw: string): Result<Option<(string, string)>, Reason> {
    var line := StripSpace(raw);
    if line == "" || line[0] == '#' then Ok(None)
    else
      var assignment := if EXPORT <= line then StripSpace(line[7..]) else line;
      var equals := IndexOf(assignment, '=');
      if equals == |assignment| then Err(NotAnAssignment)
      else
        var value := ParseValue(assignment[equals + 1..]);
        if value.Err? then Err(value.error) else Ok(Some((StripSpace(assignment[..equals]), value.value)))
  }

  /** The values once one more line, with this number, has been read. */
  function Extended(values: map<string, string>, raw: string, number: nat): Result<map<string, string>, Error> {
    var parsed := ParseLine(raw);
    if parsed.Err? then Err(Error(number, parsed.error))
    else if parsed.value.None? then Ok(values)
    else Ok(values[parsed.value.value.0 := parsed.value.value.1])
  }

  /** What the lines assign; the first faulty line is the error. */
  function Loaded(lines: seq<string>): Result<map<string, string>, Error> {
    if lines == [] then Ok(map[])
    else
      var before := Loaded(lines[..|lines| - 1]);
      if before.Err? then before else Extended(before.value, lines[|lines| - 1], |lines|)
  }

  /** What one line assigns; None for a blank line or a comment. */
  method ParseEnvLine(raw: string) returns (r: Result<Option<(string, string)>, Reason>)
    ensures r == ParseLine(raw)
  {
    var line := StripSpace(raw);
    if line == "" || line[0] == '#' {
      return Ok(None);
    }
    if EXPORT <= line {
      line := StripSpace(line[7..]);
    }
    var equals := IndexOf(line, '=');
    if equals == |line| {
      return Err(NotAnAssignment);
    }
    var value := ParseEnvValue(line[equals + 1..]);
    if value.Err? {
      return Err(value.error);
    }
    return Ok(Some((StripSpace(line[..equals]), value.value)));
  }

  method LoadEnv(text: string) returns (r: Result<map<string, string>, Error>)
    ensures r == Loaded(SplitLines(text))
  {
    var values := map[];
    var lines := SplitLines(text);
    var i := 0;
    while i < |lines|
      invariant 0 <= i <= |lines|
      invariant Loaded(lines[..i]) == Ok(values)
    {
      i := i + 1;
      assert lines[..i][..i - 1] == lines[..i - 1];
      assert Loaded(lines[..i]) == Extended(values, lines[i - 1], i);
      var parsed := ParseEnvLine(lines[i - 1]);
      if parsed.Err? {
        LaterLinesDoNotHelp(lines, i);
        return Err(Error(i, parsed.error));
      }
      if parsed.value.Some? {
        values := values[parsed.value.value.0 := parsed.value.value.1];
      }
    }
    assert lines[..i] == lines;
    return Ok(values);
  }

  lemma {:induction false} LaterLinesDoNotHelp(lines: seq<string>, n: nat)
    requires n <= |lines| && Loaded(lines[..n]).Err?
    ensures Loaded(lines) == Loaded(lines[..n])
    decreases |lines|
  {
    if n == |lines| {
      assert lines[..n] == lines;
    } else {
      assert lines[..|lines| - 1][..n] == lines[..n];
      LaterLinesDoNotHelp(lines[..|lines| - 1], n);
    }
  }

  lemma {:induction false} ExtendedMerges(a: map<string, string>, b: map<string, string>, raw: string, i: nat, j: nat)
    ensures Extended(a + b, raw, i).Ok? <==> Extended(b, raw, j).Ok?
    ensures Extended(b, raw, j).Ok? ==> Extended(a + b, raw, i) == Ok(a + Extended(b, raw, j).value)
  {
    var parsed := ParseLine(raw);
    if parsed.Ok? && parsed.value.Some? {
      var (key, value) := parsed.value.value;
      assert a + b[key := value] == (a + b)[key := value];
    }
  }

  /** Loading two files one after the other merges them, the later assignment of a key winning; an error in the first
      stays the error. */
  lemma {:induction false} FilesCompose(a: seq<string>, b: seq<string>)
    ensures Loaded(a).Err? ==> Loaded(a + b) == Loaded(a)
    ensures Loaded(a).Ok? ==> (Loaded(a + b).Ok? <==> Loaded(b).Ok?)
    ensures Loaded(a).Ok? && Loaded(b).Ok? ==> Loaded(a + b) == Ok(Loaded(a).value + Loaded(b).value)
  {
    if b == [] {
      assert a + b == a;
      assert Loaded(a).Ok? ==> Loaded(a).value + map[] == Loaded(a).value;
    } else {
      var rest := b[..|b| - 1];
      assert (a + b)[..|a + b| - 1] == a + rest;
      FilesCompose(a, rest);
      if Loaded(a).Ok? && Loaded(rest).Ok? {
        ExtendedMerges(Loaded(a).value, Loaded(rest).value, b[|b| - 1], |a + b|, |b|);
      }
    }
  }

  // ---------- Round trip ----------

  /** A line as an operator may write it. */
  datatype Line =
    | Blank(pad: string)
    | Comment(pad: string, text: string)
    | Assign(exported: bool, key: string, quote: Option<char>, value: string, pad: string, note: Option<string>)

  function Tail(pad: string, note: Option<string>): string {
    if note.Some? then pad + "#" + note.value else pad
  }

  /** The value between its quotes, or bare. */
  function Spelled(line: Line): string
    requires line.Assign?
  {
    if line.quote.Some? then [line.quote.value] + line.value + [line.quote.value] else line.value
  }

  function Statement(line: Line): string
    requires line.Assign?
  {
    line.key + ("=" + Spelled(line))
  }

  function PrintLine(line: Line): string {
    match line
    case Blank(pad) => pad
    case Comment(pad, text) => pad + "#" + text
    case Assign(exported, _, _, _, pad, note) =>
      (if exported then EXPORT else "") + Statement(line) + Tail(pad, note)
  }

  predicate Plain(s: string) {
    OneLine(s) && !HasEscape(s)
  }

  /** A bare value is stripped, starts with no quote and has no # after white space; its comment, if any, has white space
      before it, and an empty value has none. */
  predicate BareValue(value: string, pad: string, note: Option<string>) {
    && Stripped(value, IsPythonSpace) && (value != "" ==> !IsQuote(value[0]))
    && (forall i :: 0 <= i < |value| ==> !StartsComment(value, i))
    && (note.Some? ==> value != "" && pad != "")
  }

  predicate WellFormed(line: Line) {
    && AllSpace(line.pad, IsPythonSpace) && OneLine(line.pad)
    && match line
       case Blank(_) => true
       case Comment(_, text) => OneLine(text)
       case Assign(exported, key, quote, value, _, note) =>
         && Stripped(key, IsPythonSpace) && OneLine(key) && '=' !in key
         && (exported || ((key == "" || key[0] != '#') && !(EXPORT <= key)))
         && Plain(value)
         && (if quote.Some? then IsQuote(quote.value) && quote.value !in value else BareValue(value, line.pad, note))
         && (note.Some? ==> Plain(note.value))
  }

  /** The assignments of the lines, the last one of each key winning. */
  function Meaning(lines: seq<Line>): map<string, string> {
    if lines == [] then map[]
    else
      var before, last := Meaning(lines[..|lines| - 1]), lines[|lines| - 1];
      if last.Assign? then before[last.key := last.value] else before
  }

  function Written(lines: seq<Line>): seq<string> {
    if lines == [] then [] else Written(lines[..|lines| - 1]) + [PrintLine(lines[|lines| - 1])]
  }

  /** What is left of the end of a line once it is stripped. */
  function TrimmedTail(pad: string, note: Option<string>): string {
    if note.Some? then pad + "#" + TrimRight(note.value, IsPythonSpace) else ""
  }

  /** Stripping a line that ends in a tail cuts white space off the tail only, also the second time. */
  lemma {:induction false} StripTail(head: string, pad: string, note: Option<string>)
    requires head != [] && Stripped(head, IsPythonSpace) && AllSpace(pad, IsPythonSpace)
    ensures StripSpace(head + Tail(pad, note)) == head + TrimmedTail(pad, note)
    ensures StripSpace(head + TrimmedTail(pad, note)) == head + TrimmedTail(pad, note)
  {
    StripKeepsHead(head, Tail(pad, note), IsPythonSpace);
    StripKeepsHead(head, TrimmedTail(pad, note), IsPythonSpace);
    if note.Some? {
      TrimRightKeepsHead(pad + "#", note.value, IsPythonSpace);
      TrimRightKeepsHead(pad + "#", TrimRight(note.value, IsPythonSpace), IsPythonSpace);
      TrimRightTwice(note.value, IsPythonSpace);
    } else {
      TrimRightIgnoresSpace("", pad, IsPythonSpace);
      assert "" + pad == pad;
      assert head + "" == head;
    }
  }

  /** The tail after a quoted value is nothing or a comment. */
  lemma {:induction false} TailIsComment(pad: string, note: Option<string>)
    requires AllSpace(pad, IsPythonSpace)
    ensures var remainder := StripSpace(TrimmedTail(pad, note)); remainder == "" || remainder[0] == '#'
  {
    if note.Some? {
      var rest := "#" + TrimRight(note.value, IsPythonSpace);
      assert TrimmedTail(pad, note) == pad + rest;
      TrimLeftOf(pad, rest, IsPythonSpace);
      StripStarts(pad + rest, IsPythonSpace);
    }
  }

  lemma {:induction false} TailIsPlain(pad: string, note: Option<string>)
    requires AllSpace(pad, IsPythonSpace) && (note.Some? ==> Plain(note.value))
    ensures !HasEscape(TrimmedTail(pad, note))
  {
    if note.Some? {
      TrimRightDropsSpace(note.value, IsPythonSpace);
      var kept := TrimRight(note.value, IsPythonSpace);
      assert note.value == kept + note.value[|kept|..];
    }
  }

  /** A quoted value followed by nothing or a comment. */
  lemma {:induction false} QuotedParses(quote: char, value: string, tail: string)
    requires IsQuote(quote) && quote !in value && !HasEscape(value) && !HasEscape(tail)
    requires StripSpace([quote] + value + [quote] + tail) == [quote] + value + [quote] + tail
    requires StripSpace(tail) == "" || StripSpace(tail)[0] == '#'
    ensures ParseValue([quote] + value + [quote] + tail) == Ok(value)
  {
    var raw := [quote] + value + [quote] + tail;
    var closing := |value| + 1;
    assert raw[1..closing] == value && raw[closing + 1..] == tail;
    assert forall k :: 1 <= k < closing ==> raw[k] == value[k - 1];
    assert Closes(raw, closing) && ClosingQuote(raw, 1) == closing;
  }

  /** A bare value, up to the comment. */
  lemma {:induction false} BareParses(value: string, pad: string, note: Option<string>)
    requires BareValue(value, pad, note) && value != "" && AllSpace(pad, IsPythonSpace)
    ensures UnquotedValue(value + TrimmedTail(pad, note)) == value
  {
    var raw := value + TrimmedTail(pad, note);
    assert forall k :: 0 <= k < |value| ==> raw[k] == value[k];
    assert forall k :: 0 <= k < |value| ==> StartsComment(raw, k) == StartsComment(value, k);
    if note.Some? {
      var m := |value| + |pad|;
      assert forall k :: |value| <= k < m ==> raw[k] == pad[k - |value|];
      assert raw[m] == '#' && StartsComment(raw, m);
      assert CommentStart(raw, 0) == m && raw[..m] == value + pad;
      TrimRightIgnoresSpace(value, pad, IsPythonSpace);
    } else {
      assert raw == value;
      assert CommentStart(raw, 0) == |raw| && raw[..|raw|] == raw;
    }
  }

  lemma {:induction false} BareValueParses(line: Line)
    requires line.Assign? && WellFormed(line) && line.quote == None
    ensures ParseValue(line.value + TrimmedTail(line.pad, line.note)) == Ok(line.value)
  {
    if line.value == "" {
      assert line.value + TrimmedTail(line.pad, line.note) == "";
    } else {
      StripTail(line.value, line.pad, line.note);
      TailIsPlain(line.pad, line.note);
      BareParses(line.value, line.pad, line.note);
    }
  }

  lemma {:induction false} SpelledValueParses(line: Line)
    requires line.Assign? && WellFormed(line)
    ensures ParseValue(Spelled(line) + TrimmedTail(line.pad, line.note)) == Ok(line.value)
  {
    if line.quote.Some? {
      StripTail(Spelled(line), line.pad, line.note);
      TailIsComment(line.pad, line.note);
      TailIsPlain(line.pad, line.note);
      QuotedParses(line.quote.value, line.value, TrimmedTail(line.pad, line.note));
    } else {
      BareValueParses(line);
    }
  }

  lemma {:induction false} IndexOfIs(head: string, c: char, rest: string)
    requires c !in head
    ensures IndexOf(head + ([c] + rest), c) == |head|
  {
    if head == [] {
      assert head + ([c] + rest) == [c] + rest;
    } else {
      assert (head + ([c] + rest))[1..] == head[1..] + ([c] + rest);
      IndexOfIs(head[1..], c, rest);
    }
  }

  predicate IsStatement(statement: string, key: string, value: string) {
    && IndexOf(statement, '=') == |key| < |statement|
    && StripSpace(statement[..|key|]) == key
    && ParseValue(statement[|key| + 1..]) == Ok(value)
  }

  lemma JoinedOnce(a: string, b: string, c: string)
    ensures a + b + c == a + (b + c)
  {
    assert a + b + c == a + (b + c);
  }

  lemma JoinedAlike(a: string, b: string, c: string, d: string)
    ensures a + (b + c) + d == a + (b + (c + d))
  {
    assert a + (b + c) + d == a + (b + (c + d));
  }

  lemma {:induction false} StatementSplits(key: string, rest: string, value: string)
    requires Stripped(key, IsPythonSpace) && '=' !in key && ParseValue(rest) == Ok(value)
    ensures IsStatement(key + ("=" + rest), key, value)
  {
    var statement := key + ("=" + rest);
    IndexOfIs(key, '=', rest);
    assert statement[..|key|] == key && statement[|key| + 1..] == rest;
    StripFixesStripped(key, IsPythonSpace);
  }

  lemma {:induction false} StatementParses(line: Line)
    requires line.Assign? && WellFormed(line)
    ensures IsStatement(Statement(line) + TrimmedTail(line.pad, line.note), line.key, line.value)
  {
    var rest := Spelled(line) + TrimmedTail(line.pad, line.note);
    JoinedAlike(line.key, "=", Spelled(line), TrimmedTail(line.pad, line.note));
    SpelledValueParses(line);
    StatementSplits(line.key, rest, line.value);
  }

  lemma {:induction false} BareKeyIsNotExport(key: string, rest: string)
    requires '=' !in key && !(EXPORT <= key) && (key == "" || key[0] != '#')
    ensures var line := key + ("=" + rest); !(EXPORT <= line) && line[0] != '#'
  {
    var line := key + ("=" + rest);
    assert line[|key|] == '=';
    assert forall i :: 0 <= i < |key| ==> line[i] == key[i];
    assert forall i :: 0 <= i < 7 ==> EXPORT[i] != '=';
  }

  /** What a line does once it is stripped to a statement. */
  lemma {:induction false} BareLine(raw: string, statement: string, key: string, value: string)
    requires StripSpace(raw) == statement && statement != "" && statement[0] != '#' && !(EXPORT <= statement)
    requires IsStatement(statement, key, value)
    ensures ParseLine(raw) == Ok(Some((key, value)))
  {
  }

  lemma {:induction false} ExportLine(raw: string, statement: string, key: string, value: string)
    requires StripSpace(raw) == EXPORT + statement && StripSpace(statement) == statement
    requires IsStatement(statement, key, value)
    ensures ParseLine(raw) == Ok(Some((key, value)))
  {
    assert (EXPORT + statement)[7..] == statement;
    assert (EXPORT + statement)[0] == 'e';
  }

  lemma {:induction false} PrintedStrips(line: Line)
    requires line.Assign? && WellFormed(line)
    ensures var statement := Statement(line) + TrimmedTail(line.pad, line.note);
            && StripSpace(statement) == statement
            && StripSpace(PrintLine(line)) == if line.exported then EXPORT + statement else statement
  {
    StripTail(Statement(line), line.pad, line.note);
    if line.exported {
      StripTail(EXPORT + Statement(line), line.pad, line.note);
      JoinedOnce(EXPORT, Statement(line), TrimmedTail(line.pad, line.note));
    } else {
      assert PrintLine(line) == Statement(line) + Tail(line.pad, line.note);
    }
  }

  lemma {:induction false} BareStatementStandsAlone(line: Line)
    requires line.Assign? && WellFormed(line) && !line.exported
    ensures var statement := Statement(line) + TrimmedTail(line.pad, line.note);
            statement != "" && statement[0] != '#' && !(EXPORT <= statement)
  {
    var rest := Spelled(line) + TrimmedTail(line.pad, line.note);
    BareKeyIsNotExport(line.key, rest);
    JoinedAlike(line.key, "=", Spelled(line), TrimmedTail(line.pad, line.note));
  }

  /** An assignment line, bare or exported, with or without a comment, parses to its key and value. */
  lemma {:induction false} AssignmentParses(line: Line)
    requires line.Assign? && WellFormed(line)
    ensures ParseLine(PrintLine(line)) == Ok(Some((line.key, line.value)))
  {
    var statement := Statement(line) + TrimmedTail(line.pad, line.note);
    StatementParses(line);
    PrintedStrips(line);
    if line.exported {
      ExportLine(PrintLine(line), statement, line.key, line.value);
    } else {
      BareStatementStandsAlone(line);
      BareLine(PrintLine(line), statement, line.key, line.value);
    }
  }

  lemma {:induction false} OtherLinesParse(line: Line)
    requires !line.Assign? && WellFormed(line)
    ensures ParseLine(PrintLine(line)) == Ok(None)
  {
    if line.Blank? {
      assert line.pad + "" == line.pad;
      TrimLeftOf(line.pad, "", IsPythonSpace);
      StripStarts(line.pad, IsPythonSpace);
    } else {
      assert PrintLine(line) == line.pad + ("#" + line.text);
      TrimLeftOf(line.pad, "#" + line.text, IsPythonSpace);
      StripStarts(PrintLine(line), IsPythonSpace);
    }
  }

  lemma {:induction false} WrittenIs(lines: seq<Line>)
    ensures |Written(lines)| == |lines| && forall i :: 0 <= i < |lines| ==> Written(lines)[i] == PrintLine(lines[i])
  {
    if lines != [] {
      var before := lines[..|lines| - 1];
      WrittenIs(before);
      assert Written(lines) == Written(before) + [PrintLine(lines[|lines| - 1])];
      forall i | 0 <= i < |lines|
        ensures Written(lines)[i] == PrintLine(lines[i])
      {
        assert i < |before| ==> lines[i] == before[i];
      }
    }
  }

  lemma OneLineJoins(a: string, b: string)
    requires OneLine(a) && OneLine(b)
    ensures OneLine(a + b)
  {
  }

  lemma {:induction false} PrintedIsOneLine(line: Line)
    requires WellFormed(line)
    ensures OneLine(PrintLine(line))
  {
    match line
    case Blank(_) =>
    case Comment(pad, text) =>
      OneLineJoins(pad, "#");
      OneLineJoins(pad + "#", text);
    case Assign(exported, key, quote, value, pad, note) =>
      var start := if exported then EXPORT else "";
      if quote.Some? {
        OneLineJoins([quote.value], value);
        OneLineJoins([quote.value] + value, [quote.value]);
      }
      OneLineJoins("=", Spelled(line));
      OneLineJoins(key, "=" + Spelled(line));
      OneLineJoins(start, Statement(line));
      OneLineJoins(pad, "#");
      if note.Some? {
        OneLineJoins(pad + "#", note.value);
      }
      OneLineJoins(start + Statement(line), Tail(pad, note));
  }

  lemma {:induction false} WrittenLinesLoad(lines: seq<Line>)
    requires forall i :: 0 <= i < |lines| ==> WellFormed(lines[i])
    ensures Loaded(Written(lines)) == Ok(Meaning(lines))
  {
    if lines != [] {
      var last := lines[|lines| - 1];
      WrittenLinesLoad(lines[..|lines| - 1]);
      assert Written(lines)[..|Written(lines)| - 1] == Written(lines[..|lines| - 1]);
      if last.Assign? {
        AssignmentParses(last);
      } else {
        OtherLinesParse(last);
      }
    }
  }

  /** Writing lines to a file and loading it gives what they mean: every value, quoted or bare, back unchanged, the last
      assignment of a key winning. */
  lemma {:induction false} LoadingReadsBackWhatWasWritten(lines: seq<Line>, ending: string)
    requires IsEnding(ending) && forall i :: 0 <= i < |lines| ==> WellFormed(lines[i])
    ensures Loaded(SplitLines(Print(Written(lines), ending))) == Ok(Meaning(lines))
  {
    WrittenIs(lines);
    forall i | 0 <= i < |lines|
      ensures OneLine(Written(lines)[i])
    {
      PrintedIsOneLine(lines[i]);
    }
    PrintedLinesSplit(Written(lines), ending);
    WrittenLinesLoad(lines);
  }

  /** The lines assign every key of the map, and only as the map has it. */
  ghost predicate Writes(lines: seq<Line>, values: map<string, string>) {
    && (forall i :: 0 <= i < |lines| && lines[i].Assign? ==> lines[i].key in values && values[lines[i].key] == lines[i].value)
    && (forall key :: key in values ==> exists i :: 0 <= i < |lines| && lines[i].Assign? && lines[i].key == key)
  }

  lemma {:induction false} MeaningOf(lines: seq<Line>, values: map<string, string>)
    requires forall i :: 0 <= i < |lines| && lines[i].Assign? ==> lines[i].key in values && values[lines[i].key] == lines[i].value
    ensures forall key :: key in Meaning(lines) ==> key in values && values[key] == Meaning(lines)[key]
    ensures forall i :: 0 <= i < |lines| && lines[i].Assign? ==> lines[i].key in Meaning(lines)
  {
    if lines != [] {
      MeaningOf(lines[..|lines| - 1], values);
    }
  }

  lemma {:induction false} MeaningIs(lines: seq<Line>, values: map<string, string>)
    requires Writes(lines, values)
    ensures Meaning(lines) == values
  {
    MeaningOf(lines, values);
    forall key | key in values
      ensures key in Meaning(lines)
    {
      var i :| 0 <= i < |lines| && lines[i].Assign? && lines[i].key == key;
    }
  }

  /** A map written in any order, with comments, blank lines and repetitions, is loaded back as it was. */
  lemma {:induction false} MapRoundTrip(values: map<string, string>, lines: seq<Line>, ending: string)
    requires IsEnding(ending) && Writes(lines, values) && forall i :: 0 <= i < |lines| ==> WellFormed(lines[i])
    ensures Loaded(SplitLines(Print(Written(lines), ending))) == Ok(values)
  {
    LoadingReadsBackWhatWasWritten(lines, ending);
    MeaningIs(lines, values);
  }

  // ---------- What is refused ----------

  predicate InRange(value: string, n: nat) {
    1 <= n < |value|
  }

  /** The quote at n is the second one of its kind. */
  predicate ClosesAt(value: string, n: nat) {
    InRange(value, n) && value[n] == value[0] && value[0] !in value[1..n]
  }

  /** Without backslashes a quoted value ends at the next such quote. */
  lemma {:induction false} ClosingQuoteIsNext(value: string, n: nat)
    requires value != "" && '\\' !in value
    ensures ClosingQuote(value, 1) == |value| <==> value[0] !in value[1..]
    ensures n < |value| ==> (ClosingQuote(value, 1) == n <==> ClosesAt(value, n))
  {
    var closing := ClosingQuote(value, 1);
    forall k | 1 <= k < |value|
      ensures Closes(value, k) <==> value[k] == value[0]
    {
      assert value[k - 1] in value;
    }
    assert forall k :: 1 <= k < closing ==> value[k] != value[0];
    assert forall k :: 1 <= k < |value| ==> value[k] == value[1..][k - 1];
    if n < |value| && ClosesAt(value, n) {
      assert forall k :: 1 <= k < n ==> value[k] == value[1..n][k - 1];
      assert closing == n;
    }
  }

  predicate HasContent(rest: string) {
    StripSpace(rest) != "" && StripSpace(rest)[0] != '#'
  }

  /** A value is refused exactly when it holds a dollar sign or a backslash, even in a comment; or opens a quote that is
      not closed; or has more than a comment after the closing quote. */
  lemma {:induction false} RefusedExactlyWhen(raw: string)
    ensures ParseValue(raw) == Err(UnsupportedSyntax) <==> '$' in raw || '\\' in raw
    ensures var value := StripSpace(raw);
            var quoted := value != "" && (value[0] == '"' || value[0] == '\'') && '$' !in raw && '\\' !in raw;
            && (ParseValue(raw) == Err(UnterminatedQuote) <==> quoted && value[0] !in value[1..])
            && (ParseValue(raw) == Err(ContentAfterQuote) <==>
                  quoted && exists n :: ClosesAt(value, n) && HasContent(value[n + 1..]))
  {
    var value := StripSpace(raw);
    StripKeepsOthers(raw, IsPythonSpace, '$');
    StripKeepsOthers(raw, IsPythonSpace, '\\');
    if value != "" && !HasEscape(value) {
      var closing := ClosingQuote(value, 1);
      ClosingQuoteIsNext(value, closing);
      forall n | ClosesAt(value, n)
        ensures n == closing
      {
        ClosingQuoteIsNext(value, n);
      }
    }
  }

  /** A file is refused for its first faulty line, counted from one. */
  lemma {:induction false} FirstFaultIsReported(lines: seq<string>, n: nat)
    requires n < |lines|
    ensures (forall k :: 0 <= k < n ==> ParseLine(lines[k]).Ok?) && ParseLine(lines[n]).Err? ==>
              Loaded(lines) == Err(Error(n + 1, ParseLine(lines[n]).error))
    ensures Loaded(lines).Ok? ==> ParseLine(lines[n]).Ok?
  {
    if ParseLine(lines[n]).Err? {
      assert lines[..n + 1][..n] == lines[..n];
      assert Loaded(lines[..n]).Ok? ==> Loaded(lines[..n + 1]) == Extended(Loaded(lines[..n]).value, lines[n], n + 1);
      LaterLinesDoNotHelp(lines, n + 1);
      GoodLinesLoad(lines[..n]);
    }
  }

  lemma {:induction false} GoodLinesLoad(lines: seq<string>)
    ensures (forall k :: 0 <= k < |lines| ==> ParseLine(lines[k]).Ok?) ==> Loaded(lines).Ok?
  {
    if lines != [] {
      GoodLinesLoad(lines[..|lines| - 1]);
    }
  }

  /** A line assigns nothing exactly when it is blank or a comment; any other line is an assignment exactly when it holds
      an equals sign. */
  lemma {:induction false} NoAssignmentWithoutEquals(raw: string)
    ensures ParseLine(raw) == Ok(None) <==> StripSpace(raw) == "" || StripSpace(raw)[0] == '#'
    ensures ParseLine(raw) == Err(NotAnAssignment) <==>
              StripSpace(raw) != "" && StripSpace(raw)[0] != '#' && '=' !in raw
  {
    var line := StripSpace(raw);
    StripKeepsOthers(raw, IsPythonSpace, '=');
    if EXPORT <= line {
      StripKeepsOthers(line[7..], IsPythonSpace, '=');
      assert line == EXPORT + line[7..];
    }
    var assignment := if EXPORT <= line then StripSpace(line[7..]) else line;
    var equals := IndexOf(assignment, '=');
    assert equals == |assignment| ==> assignment[..equals] == assignment;
  }

  // ---------- Trailing comments ----------

  /** The white space stripped off the end of a value that does not consist of white space. */
  function Gap(raw: string): string {
    var left := TrimLeft(raw, IsPythonSpace);
    TrimRightDropsSpace(left, IsPythonSpace);
    left[|StripSpace(raw)|..]
  }

  function WithComment(value: string, gap: string, comment: string): string {
    value + gap + " #" + comment
  }

  lemma CommentAlone(comment: string)
    ensures TrimLeft(" #" + comment, IsPythonSpace) == "#" + comment
  {
    assert (" #" + comment)[1..] == "#" + comment;
  }

  /** After white space only the comment is left. */
  lemma {:induction false} BlankWithComment(raw: string, comment: string)
    requires StripSpace(raw) == ""
    ensures StripSpace(raw + " #" + comment) == "#" + TrimRight(comment, IsPythonSpace)
  {
    StripStarts(raw, IsPythonSpace);
    assert raw + " #" + comment == raw + (" #" + comment);
    TrimLeftOf(raw, " #" + comment, IsPythonSpace);
    CommentAlone(comment);
    TrimRightKeepsHead("#", comment, IsPythonSpace);
  }

  lemma {:induction false} GapIsSpace(raw: string)
    ensures AllSpace(Gap(raw), IsPythonSpace) && TrimLeft(raw, IsPythonSpace) == StripSpace(raw) + Gap(raw)
  {
    TrimRightDropsSpace(TrimLeft(raw, IsPythonSpace), IsPythonSpace);
  }

  lemma {:induction false} ValueWithComment(raw: string, comment: string)
    requires StripSpace(raw) != ""
    ensures StripSpace(raw + " #" + comment) == WithComment(StripSpace(raw), Gap(raw), TrimRight(comment, IsPythonSpace))
  {
    var left := TrimLeft(raw, IsPythonSpace);
    StripStarts(raw, IsPythonSpace);
    GapIsSpace(raw);
    assert raw + " #" + comment == raw + (" #" + comment);
    TrimLeftOf(raw, " #" + comment, IsPythonSpace);
    assert left + (" #" + comment) == left + " #" + comment;
    TrimRightKeepsHead(left + " #", comment, IsPythonSpace);
  }

  lemma {:induction false} UnquotedIgnoresComment(value: string, gap: string, comment: string)
    requires value != "" && AllSpace(gap, IsPythonSpace)
    ensures UnquotedValue(WithComment(value, gap, comment)) == UnquotedValue(value)
  {
    var full, n := WithComment(value, gap, comment), CommentStart(value, 0);
    assert forall k :: 0 <= k < |value| ==> full[k] == value[k];
    assert forall k :: 0 <= k < |value| ==> StartsComment(full, k) == StartsComment(value, k);
    if n < |value| {
      assert CommentStart(full, 0) == n;
      assert full[..n] == value[..n];
    } else {
      var m := |value| + |gap| + 1;
      assert StartsComment(full, m);
      assert forall k :: |value| <= k < m ==> full[k] == (gap + " ")[k - |value|];
      assert CommentStart(full, 0) == m;
      assert full[..m] == value + (gap + " ") && value[..n] == value;
      TrimRightIgnoresSpace(value, gap + " ", IsPythonSpace);
    }
  }

  lemma {:induction false} CommentKeepsClosingQuote(value: string, gap: string, comment: string)
    requires value != "" && ClosingQuote(value, 1) < |value|
    ensures ClosingQuote(WithComment(value, gap, comment), 1) == ClosingQuote(value, 1)
  {
    var full, n := WithComment(value, gap, comment), ClosingQuote(value, 1);
    assert forall k :: 0 <= k < |value| ==> full[k] == value[k];
    assert forall k :: 1 <= k < |value| ==> Closes(full, k) == Closes(value, k);
    assert ClosingQuote(full, 1) == n;
  }

  /** What follows the quote, with one more comment, is still a comment. */
  lemma {:induction false} CommentAfterComment(rest: string, gap: string, comment: string)
    requires AllSpace(gap, IsPythonSpace)
    requires StripSpace(rest) == "" || StripSpace(rest)[0] == '#'
    ensures var after := StripSpace(rest + (gap + (" #" + comment))); after != "" && after[0] == '#'
  {
    var added := gap + (" #" + comment);
    TrimLeftOf(rest, added, IsPythonSpace);
    TrimLeftOf(gap, " #" + comment, IsPythonSpace);
    CommentAlone(comment);
    StripStarts(rest, IsPythonSpace);
    StripStarts(rest + added, IsPythonSpace);
  }

  lemma {:induction false} QuotedIgnoresComment(value: string, gap: string, comment: string)
    requires value != "" && AllSpace(gap, IsPythonSpace) && ClosingQuote(value, 1) < |value|
    requires var remainder := StripSpace(value[ClosingQuote(value, 1) + 1..]); remainder == "" || remainder[0] == '#'
    ensures var full, n := WithComment(value, gap, comment), ClosingQuote(value, 1);
            && ClosingQuote(full, 1) == n && full[1..n] == value[1..n]
            && StripSpace(full[n + 1..]) != "" && StripSpace(full[n + 1..])[0] == '#'
  {
    var full, n := WithComment(value, gap, comment), ClosingQuote(value, 1);
    CommentKeepsClosingQuote(value, gap, comment);
    CommentAfterComment(value[n + 1..], gap, comment);
    assert full[n + 1..] == value[n + 1..] + (gap + (" #" + comment));
  }

  lemma EscapeOf(value: string, gap: string, comment: string)
    requires AllSpace(gap, IsPythonSpace)
    ensures HasEscape(WithComment(value, gap, TrimRight(comment, IsPythonSpace))) <==> HasEscape(value) || HasEscape(comment)
    ensures HasEscape("#" + TrimRight(comment, IsPythonSpace)) <==> HasEscape(comment)
  {
    var kept := TrimRight(comment, IsPythonSpace);
    TrimRightDropsSpace(comment, IsPythonSpace);
    assert comment == kept + comment[|kept|..];
  }

  /** Appending a comment to a value that parses leaves it as it is exactly when the value is not blank and the comment
      is free of the dollar sign and the backslash: after a blank value the comment itself becomes the value, and an
      unsupported character is refused even inside a comment. */
  lemma {:induction false} TrailingCommentIsIgnored(raw: string, comment: string)
    requires ParseValue(raw).Ok?
    ensures ParseValue(raw + " #" + comment) == ParseValue(raw) <==> StripSpace(raw) != "" && !HasEscape(comment)
  {
    var value, kept := StripSpace(raw), TrimRight(comment, IsPythonSpace);
    GapIsSpace(raw);
    EscapeOf(value, Gap(raw), comment);
    if value == "" {
      BlankTakesComment(raw, comment);
      return;
    }
    ValueWithComment(raw, comment);
    if !HasEscape(comment) {
      if IsQuote(value[0]) {
        QuotedIgnoresComment(value, Gap(raw), kept);
      } else {
        UnquotedIgnoresComment(value, Gap(raw), kept);
      }
    }
  }

  /** After a blank value the comment is read as the value. */
  lemma {:induction false} BlankTakesComment(raw: string, comment: string)
    requires StripSpace(raw) == ""
    ensures ParseValue(raw + " #" + comment) != ParseValue(raw)
  {
    BlankWithComment(raw, comment);
    var value := "#" + TrimRight(comment, IsPythonSpace);
    var n := CommentStart(value, 0);
    assert n > 0;
    assert value[..n] == "#" + value[1..n];
    TrimRightKeepsHead("#", value[1..n], IsPythonSpace);
  }
}
