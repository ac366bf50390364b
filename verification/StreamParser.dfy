/** The reassembler of a chat stream (web/src/services/llm-chat.ts): chunks of text are cut into lines, each line holds
    one event, and the events build up a message and a table of tool calls. */
module StreamParser {
  import Decimals
  import opened Options

  // ---- Tool names ----

  function Replaced(name: string, from: char, to: char): (r: string)
    ensures |r| == |name|
    ensures forall k :: 0 <= k < |name| ==> r[k] == if name[k] == from then to else name[k]
  {
    if name == "" then "" else [if name[0] == from then to else name[0]] + Replaced(name[1..], from, to)
  }

  /** The name sent to the provider. */
  function Sanitized(name: string): string {
    Replaced(name, ':', '_')
  }

  /** The name given back: the first tool that was sent under this name, or else a guess. */
  function Restored(name: string, tools: seq<string>): string {
    if tools == [] then Replaced(name, '_', ':')
    else if Sanitized(tools[0]) == name then tools[0]
    else Restored(name, tools[1..])
  }

  ghost predicate SentDistinctly(tools: seq<string>) {
    forall t, u :: t in tools && u in tools && Sanitized(t) == Sanitized(u) ==> t == u
  }

  /** Tool k is the first that was sent under the name. */
  ghost predicate FirstSentAs(tools: seq<string>, name: string, k: nat) {
    && k < |tools| && Sanitized(tools[k]) == name
    && forall j :: 0 <= j < k ==> Sanitized(tools[j]) != name
  }

  lemma {:induction false} RestoredIsFirstMatch(name: string, tools: seq<string>)
    ensures forall k: nat :: FirstSentAs(tools, name, k) ==> Restored(name, tools) == tools[k]
    ensures (exists k :: 0 <= k < |tools| && Sanitized(tools[k]) == name) ==>
              Restored(name, tools) in tools && Sanitized(Restored(name, tools)) == name
    ensures (forall k :: 0 <= k < |tools| ==> Sanitized(tools[k]) != name) ==>
              Restored(name, tools) == Replaced(name, '_', ':')
  {
    if tools != [] && Sanitized(tools[0]) != name {
      RestoredIsFirstMatch(name, tools[1..]);
      if k :| 0 <= k < |tools| && Sanitized(tools[k]) == name {
        assert tools[1..][k - 1] == tools[k];
      }
      forall k: nat | FirstSentAs(tools, name, k) ensures Restored(name, tools) == tools[k] {
        assert k > 0 && forall j :: 0 <= j < k - 1 ==> tools[1..][j] == tools[j + 1];
        assert FirstSentAs(tools[1..], name, k - 1);
      }
    } else {
      assert forall k: nat :: FirstSentAs(tools, name, k) ==> k == 0;
    }
  }

  /** Every tool's own name comes back if and only if no two tools are sent under one name. */
  lemma NamesComeBackExactlyWhenDistinct(tools: seq<string>)
    ensures (forall t :: t in tools ==> Restored(Sanitized(t), tools) == t) <==> SentDistinctly(tools)
  {
    forall t | t in tools
      ensures Restored(Sanitized(t), tools) in tools && Sanitized(Restored(Sanitized(t), tools)) == Sanitized(t)
    {
      RestoredIsFirstMatch(Sanitized(t), tools);
    }
  }

  /** A provider's name without colons is sent again as it came, whether or not a tool matched it. */
  lemma RestoredNameIsSentAgain(name: string, tools: seq<string>)
    requires ':' !in name
    ensures Sanitized(Restored(name, tools)) == name
  {
    RestoredIsFirstMatch(name, tools);
    if forall k :: 0 <= k < |tools| ==> Sanitized(tools[k]) != name {
      assert Sanitized(Replaced(name, '_', ':')) == name;
    }
  }

  // ---- Tool calls ----

  /** A fragment of a call. Empty strings stand for missing fields, which the code treats alike. */
  datatype Fragment = Fragment(index: nat, id: string, kind: string, name: string, arguments: string)

  datatype ToolCall = ToolCall(id: string, kind: string, name: string, arguments: string)

  /** What is taken from the data of one event. */
  datatype Delta = Delta(reasoning: string, content: string, fragments: seq<Fragment>)

  function DefaultId(index: nat): string {
    "call_" + Decimals.Numeral(index)
  }

  /** A call without an id is named after its index, so that no two such calls share one. */
  lemma DefaultIdTellsIndex(index: nat)
    ensures "call_" <= DefaultId(index)
    ensures Decimals.IsNumeral(DefaultId(index)[5..]) && Decimals.Value(DefaultId(index)[5..]) == index
  {
    Decimals.NumeralParsesBack(index);
    assert DefaultId(index)[5..] == Decimals.Numeral(index);
  }

  function Or(s: string, fallback: string): string {
    if s == "" then fallback else s
  }

  function Started(f: Fragment): ToolCall {
    ToolCall(Or(f.id, DefaultId(f.index)), Or(f.kind, "function"), f.name, f.arguments)
  }

  function Extended(c: ToolCall, f: Fragment): ToolCall {
    ToolCall(Or(f.id, c.id), c.kind, Or(f.name, c.name), c.arguments + f.arguments)
  }

  function FragmentTaken(calls: map<nat, ToolCall>, f: Fragment): map<nat, ToolCall> {
    calls[f.index := if f.index in calls then Extended(calls[f.index], f) else Started(f)]
  }

  function FragmentsTaken(calls: map<nat, ToolCall>, fs: seq<Fragment>): map<nat, ToolCall> {
    if fs == [] then calls else FragmentTaken(FragmentsTaken(calls, fs[..|fs| - 1]), fs[|fs| - 1])
  }

  /** The table of calls that the fragments add up to. */
  function Accumulated(fs: seq<Fragment>): map<nat, ToolCall> {
    FragmentsTaken(map[], fs)
  }

  /** The fragments of one call, in order. */
  function Only(fs: seq<Fragment>, index: nat): (r: seq<Fragment>)
    ensures forall f :: f in r <==> f in fs && f.index == index
  {
    if fs == [] then []
    else
      var before, f := Only(fs[..|fs| - 1], index), fs[|fs| - 1];
      if f.index == index then before + [f] else before
  }

  function Arguments(fs: seq<Fragment>): string {
    if fs == [] then "" else Arguments(fs[..|fs| - 1]) + fs[|fs| - 1].arguments
  }

  function LastName(fs: seq<Fragment>): string {
    if fs == [] then "" else Or(fs[|fs| - 1].name, LastName(fs[..|fs| - 1]))
  }

  function LastId(fs: seq<Fragment>): string {
    if fs == [] then "" else Or(fs[|fs| - 1].id, LastId(fs[..|fs| - 1]))
  }

  /** What the fragments of one call add up to. */
  function Whole(fs: seq<Fragment>, index: nat): ToolCall
    requires fs != []
  {
    ToolCall(Or(LastId(fs), DefaultId(index)), Or(fs[0].kind, "function"), LastName(fs), Arguments(fs))
  }

  lemma OneMore(fs: seq<Fragment>, f: Fragment)
    ensures Whole(fs + [f], f.index) == if fs == [] then Started(f) else Extended(Whole(fs, f.index), f)
  {
    assert (fs + [f])[..|fs|] == fs;
    assert LastId(fs + [f]) == Or(f.id, LastId(fs)) && LastName(fs + [f]) == Or(f.name, LastName(fs));
    assert Arguments(fs + [f]) == Arguments(fs) + f.arguments;
    if fs == [] {
      assert Arguments([]) + f.arguments == f.arguments;
    }
  }

  /** Calls do not mix: each index gets what its own fragments say, however they are interleaved with others. Its
      arguments are the fragments' in order, its name and id the last ones given, its type the first one's. */
  lemma {:induction false} CallsDoNotMix(fs: seq<Fragment>, index: nat)
    ensures index in Accumulated(fs) <==> Only(fs, index) != []
    ensures Only(fs, index) != [] ==> Accumulated(fs)[index] == Whole(Only(fs, index), index)
  {
    if fs == [] {
    } else {
      var before, f := fs[..|fs| - 1], fs[|fs| - 1];
      CallsDoNotMix(before, index);
      if f.index == index {
        OneMore(Only(before, index), f);
      }
    }
  }

  // ---- Lines ----

  /** The lines that a newline ends. */
  function Lines(text: string): seq<string> {
    if text == "" then []
    else
      var before, c := text[..|text| - 1], text[|text| - 1];
      if c == '\n' then Lines(before) + [Residue(before)] else Lines(before)
  }

  /** What follows the last newline. */
  function Residue(text: string): (r: string) {
    if text == "" then ""
    else
      var before, c := text[..|text| - 1], text[|text| - 1];
      if c == '\n' then "" else Residue(before) + [c]
  }

  /** JavaScript's text.split("\n"). */
  function Split(text: string): seq<string> {
    Lines(text) + [Residue(text)]
  }

  /** From i to the end there is no newline, and i begins a line. */
  ghost predicate TailAt(text: string, i: nat) {
    && i <= |text|
    && (i == 0 || text[i - 1] == '\n')
    && forall k :: i <= k < |text| ==> text[k] != '\n'
  }

  lemma {:induction false} ResidueIsTail(text: string)
    ensures |Residue(text)| <= |text|
    ensures Residue(text) == text[|text| - |Residue(text)|..] && TailAt(text, |text| - |Residue(text)|)
  {
    if text == "" {
    } else {
      ResidueIsTail(text[..|text| - 1]);
    }
  }

  lemma {:induction false} OneLine(text: string)
    requires '\n' !in text
    ensures Lines(text) == [] && Residue(text) == text
  {
    if text == "" {
    } else {
      OneLine(text[..|text| - 1]);
    }
  }

  lemma OneCharacterMore(text: string, c: char)
    ensures c == '\n' ==> Lines(text + [c]) == Lines(text) + [Residue(text)] && Residue(text + [c]) == ""
    ensures c != '\n' ==> Lines(text + [c]) == Lines(text) && Residue(text + [c]) == Residue(text) + [c]
  {
    assert (text + [c])[..|text|] == text;
  }

  lemma SameCharacterMore(lines: seq<string>, x: string, y: string, c: char)
    requires Lines(x) == lines + Lines(y) && Residue(x) == Residue(y)
    ensures Lines(x + [c]) == lines + Lines(y + [c]) && Residue(x + [c]) == Residue(y + [c])
  {
    OneCharacterMore(x, c);
    OneCharacterMore(y, c);
  }

  /** Text may be split as it comes in, if what follows the last newline is kept for the next piece. */
  lemma {:induction false} SplitJoin(a: string, b: string)
    ensures Lines(a + b) == Lines(a) + Lines(Residue(a) + b)
    ensures Residue(a + b) == Residue(Residue(a) + b)
  {
    if b == "" {
      ResidueIsTail(a);
      OneLine(Residue(a));
      assert a + b == a && Residue(a) + b == Residue(a);
    } else {
      var before, c := b[..|b| - 1], b[|b| - 1];
      SplitJoin(a, before);
      SameCharacterMore(Lines(a), a + before, Residue(a) + before, c);
      assert b == before + [c];
      assert a + before + [c] == a + b;
      assert Residue(a) + before + [c] == Residue(a) + b;
    }
  }

  /** The lines, each with its newline, put together again. */
  function Unlines(lines: seq<string>): string {
    if lines == [] then "" else Unlines(lines[..|lines| - 1]) + lines[|lines| - 1] + "\n"
  }

  /** Splitting loses nothing and keeps the order: the lines and the residue make up the text, and no line holds a
      newline. There is only one such list. */
  lemma {:induction false} LinesMakeUpText(text: string)
    ensures Unlines(Lines(text)) + Residue(text) == text
    ensures '\n' !in Residue(text) && forall line :: line in Lines(text) ==> '\n' !in line
  {
    if text == "" {
    } else {
      var before, c := text[..|text| - 1], text[|text| - 1];
      LinesMakeUpText(before);
      assert text == before + [c];
      if c == '\n' {
        UnlinesSnoc(Lines(before), Residue(before));
      }
    }
  }

  lemma UnlinesSnoc(lines: seq<string>, line: string)
    ensures Unlines(lines + [line]) + "" == Unlines(lines) + line + "\n"
  {
    assert (lines + [line])[..|lines|] == lines;
  }

  /** Any list of lines without newlines, and a residue without one, is what splitting the text they make up gives. */
  lemma {:induction false} TextMakesUpLines(lines: seq<string>, residue: string)
    requires '\n' !in residue && forall line :: line in lines ==> '\n' !in line
    ensures Lines(Unlines(lines) + residue) == lines && Residue(Unlines(lines) + residue) == residue
  {
    if lines == [] {
      assert "" + residue == residue;
      OneLine(residue);
    } else {
      var before, line := lines[..|lines| - 1], lines[|lines| - 1];
      TextMakesUpLines(before, line);
      var text := Unlines(before) + line;
      EndedLine(text);
      SplitJoin(text + "\n", residue);
      OneLine(residue);
      assert text + "\n" == Unlines(lines) && "" + residue == residue && lines + [] == lines;
      assert before + [line] == lines;
    }
  }

  lemma EndedLine(text: string)
    ensures Lines(text + "\n") == Lines(text) + [Residue(text)] && Residue(text + "\n") == ""
  {
    assert (text + "\n")[..|text|] == text;
  }

  /** At i begins a line of the text, and a newline ends it. */
  ghost predicate LineAt(text: string, i: nat, line: string) {
    && i + |line| < |text|
    && text[i..i + |line|] == line
    && '\n' !in line
    && text[i + |line|] == '\n'
    && (i == 0 || text[i - 1] == '\n')
  }

  lemma LineStays(text: string, c: char, i: nat, line: string)
    requires i + |line| < |text|
    ensures LineAt(text + [c], i, line) <==> LineAt(text, i, line)
  {
    assert (text + [c])[i..i + |line|] == text[i..i + |line|];
  }

  lemma LastLineIsTail(text: string, i: nat, line: string)
    requires i + |line| == |text| && LineAt(text + ['\n'], i, line)
    ensures line == text[i..] && TailAt(text, i)
  {
    assert (text + ['\n'])[i..|text|] == text[i..];
    forall k | i <= k < |text| ensures text[k] != '\n' {
      assert text[k] == line[k - i];
    }
  }

  lemma TailIsLastLine(text: string, i: nat)
    requires TailAt(text, i)
    ensures LineAt(text + ['\n'], i, text[i..])
  {
    assert (text + ['\n'])[i..|text|] == text[i..];
  }

  lemma TailIsUnique(text: string, i: nat, n: nat)
    requires TailAt(text, i) && TailAt(text, n)
    ensures i == n
  {
  }

  lemma LastLineIsResidue(text: string, i: nat, line: string)
    requires i + |line| == |text| && LineAt(text + ['\n'], i, line)
    ensures line == Residue(text)
  {
    LastLineIsTail(text, i, line);
    ResidueIsTail(text);
    TailIsUnique(text, i, |text| - |Residue(text)|);
  }

  lemma ResidueIsLastLine(text: string)
    ensures |Residue(text)| <= |text| && LineAt(text + ['\n'], |text| - |Residue(text)|, Residue(text))
  {
    ResidueIsTail(text);
    TailIsLastLine(text, |text| - |Residue(text)|);
  }

  lemma {:induction false} ListedLineStands(text: string, line: string) returns (i: nat)
    requires line in Lines(text)
    ensures LineAt(text, i, line)
  {
    var before, c := text[..|text| - 1], text[|text| - 1];
    assert text == before + [c];
    if line in Lines(before) {
      i := ListedLineStands(before, line);
      LineStays(before, c, i, line);
    } else {
      ResidueIsLastLine(before);
      i := |before| - |line|;
    }
  }

  lemma {:induction false} StandingLineIsListed(text: string, i: nat, line: string)
    requires LineAt(text, i, line)
    ensures line in Lines(text)
  {
    var before, c := text[..|text| - 1], text[|text| - 1];
    assert text == before + [c];
    if i + |line| < |before| {
      LineStays(before, c, i, line);
      StandingLineIsListed(before, i, line);
    } else {
      LastLineIsResidue(before, i, line);
    }
  }

  /** A line is listed if and only if it stands in the text. */
  lemma LinesStandInText(text: string, line: string)
    ensures line in Lines(text) <==> exists i: nat :: LineAt(text, i, line)
  {
    if line in Lines(text) {
      var i := ListedLineStands(text, line);
    }
    if i: nat :| LineAt(text, i, line) {
      StandingLineIsListed(text, i, line);
    }
  }

  // ---- Events ----

  /** What the stream reports, in order. */
  datatype Callback =
    | Reasoning(text: string)
    | Content(text: string)
    | ToolCalls(calls: map<nat, ToolCall>)
    | Complete(message: string)
    | Failed

  /** What the stream is handled with: the reading of one event's data (nothing, if it has no usable choice), the
      names of the tools offered, and whether the provider had them renamed. */
  datatype Setting = Setting(parse: string -> Option<Delta>, tools: seq<string>, renames: bool)

  datatype Progress = Progress(message: string, calls: map<nat, ToolCall>, log: seq<Callback>, finished: bool)

  const DATA := "data: "
  const DONE := "[DONE]"

  function Begun(): Progress {
    Progress("", map[], [], false)
  }

  function DeltaTaken(p: Progress, d: Delta): Progress {
    var log1 := if d.reasoning != "" then p.log + [Reasoning(d.reasoning)] else p.log;
    var log2 := if d.content != "" then log1 + [Content(d.content)] else log1;
    Progress(p.message + d.content, FragmentsTaken(p.calls, d.fragments), log2, p.finished)
  }

  function NamesRestored(calls: map<nat, ToolCall>, s: Setting): map<nat, ToolCall> {
    if !s.renames then calls
    else map i | i in calls :: calls[i].(name := Restored(calls[i].name, s.tools))
  }

  function Finished(p: Progress, s: Setting): Progress {
    var told := if p.calls != map[] then [ToolCalls(NamesRestored(p.calls, s))] else [];
    p.(log := p.log + told + [Complete(p.message)], finished := true)
  }

  function LineTaken(p: Progress, line: string, s: Setting): Progress {
    if p.finished then p
    else if !(DATA <= line) then p
    else if line[6..] == DONE then Finished(p, s)
    else
      match s.parse(line[6..])
      case None => p
      case Some(d) => DeltaTaken(p, d)
  }

  function LinesTaken(lines: seq<string>, s: Setting): Progress {
    if lines == [] then Begun() else LineTaken(LinesTaken(lines[..|lines| - 1], s), lines[|lines| - 1], s)
  }

  function Joined(chunks: seq<string>): string {
    if chunks == [] then "" else Joined(chunks[..|chunks| - 1]) + chunks[|chunks| - 1]
  }

  lemma {:induction false} JoinedPrefix(chunks: seq<string>, k: nat)
    requires k <= |chunks|
    ensures Joined(chunks[..k]) <= Joined(chunks)
  {
    if k < |chunks| {
      JoinedPrefix(chunks[..|chunks| - 1], k);
      assert chunks[..|chunks| - 1][..k] == chunks[..k];
    } else {
      assert chunks[..k] == chunks;
    }
  }

  /** Once finished, nothing more is taken. */
  lemma {:induction false} FinishedStays(lines: seq<string>, more: seq<string>, s: Setting)
    requires LinesTaken(lines, s).finished
    ensures LinesTaken(lines + more, s) == LinesTaken(lines, s)
  {
    if more == [] {
      assert lines + more == lines;
    } else {
      FinishedStays(lines, more[..|more| - 1], s);
      assert (lines + more)[..|lines + more| - 1] == lines + more[..|more| - 1];
    }
  }

  method TakeFragments(calls: map<nat, ToolCall>, fs: seq<Fragment>) returns (after: map<nat, ToolCall>)
    ensures after == FragmentsTaken(calls, fs)
  {
    after := calls;
    for k := 0 to |fs|
      invariant after == FragmentsTaken(calls, fs[..k])
    {
      var f := fs[k];
      if f.index !in after {
        after := after[f.index := ToolCall(if f.id != "" then f.id else DefaultId(f.index),
                                           if f.kind != "" then f.kind else "function", f.name, f.arguments)];
      } else {
        if f.arguments != "" {
          after := after[f.index := after[f.index].(arguments := after[f.index].arguments + f.arguments)];
        }
        if f.name != "" {
          after := after[f.index := after[f.index].(name := f.name)];
        }
        if f.id != "" {
          after := after[f.index := after[f.index].(id := f.id)];
        }
      }
      TakenFragment(FragmentsTaken(calls, fs[..k]), f, after);
      assert fs[..k + 1][..k] == fs[..k];
    }
    assert fs[..|fs|] == fs;
  }

  lemma TakenFragment(calls: map<nat, ToolCall>, f: Fragment, after: map<nat, ToolCall>)
    requires after.Keys == calls.Keys + {f.index}
    requires forall i :: i in calls && i != f.index ==> after[i] == calls[i]
    requires f.index !in calls ==> after[f.index] == Started(f)
    requires f.index in calls ==>
               var c, a := calls[f.index], after[f.index];
               && a.id == Or(f.id, c.id) && a.kind == c.kind && a.name == Or(f.name, c.name)
               && a.arguments == if f.arguments == "" then c.arguments else c.arguments + f.arguments
    ensures after == FragmentTaken(calls, f)
  {
    if f.index in calls {
      assert calls[f.index].arguments + "" == calls[f.index].arguments;
      assert after[f.index] == Extended(calls[f.index], f);
    }
    assert after.Keys == FragmentTaken(calls, f).Keys;
  }

  method HandleDelta(message: string, calls: map<nat, ToolCall>, log: seq<Callback>, delta: Delta)
    returns (message': string, calls': map<nat, ToolCall>, log': seq<Callback>)
    ensures Progress(message', calls', log', false) == DeltaTaken(Progress(message, calls, log, false), delta)
  {
    message', log' := message, log;
    if delta.reasoning != "" {
      log' := log' + [Reasoning(delta.reasoning)];
    }
    if delta.content != "" {
      message' := message' + delta.content;
      log' := log' + [Content(delta.content)];
    } else {
      assert message + delta.content == message;
    }
    calls' := TakeFragments(calls, delta.fragments);
  }

  method FinishStream(message: string, calls: map<nat, ToolCall>, log: seq<Callback>, s: Setting)
    returns (log': seq<Callback>)
    ensures Progress(message, calls, log', true) == Finished(Progress(message, calls, log, false), s)
  {
    log' := log;
    if calls != map[] {
      log' := log' + [ToolCalls(NamesRestored(calls, s))];
    }
    log' := log' + [Complete(message)];
    assert log + [] == log;
  }

  /** One complete line, while the stream is not finished. */
  method HandleLine(message: string, calls: map<nat, ToolCall>, log: seq<Callback>, line: string, s: Setting)
    returns (message': string, calls': map<nat, ToolCall>, log': seq<Callback>, finished: bool)
    ensures Progress(message', calls', log', finished) == LineTaken(Progress(message, calls, log, false), line, s)
  {
    message', calls', log', finished := message, calls, log, false;
    if DATA <= line {
      var data := line[6..];
      if data == DONE {
        finished := true;
        log' := FinishStream(message, calls, log, s);
        return;
      }
      match s.parse(data) {
        case None =>
        case Some(delta) =>
          message', calls', log' := HandleDelta(message, calls, log, delta);
      }
    }
  }

  /** The complete lines of one buffer; after the done line the others are left. */
  method HandleLines(message: string, calls: map<nat, ToolCall>, log: seq<Callback>, lines: seq<string>, s: Setting,
                     ghost seen: seq<string>)
    returns (message': string, calls': map<nat, ToolCall>, log': seq<Callback>, finished: bool)
    requires Progress(message, calls, log, false) == LinesTaken(seen, s)
    ensures Progress(message', calls', log', finished) == LinesTaken(seen + lines, s)
  {
    message', calls', log', finished := message, calls, log, false;
    assert seen + lines[..0] == seen;
    for j := 0 to |lines|
      invariant !finished
      invariant Progress(message', calls', log', false) == LinesTaken(seen + lines[..j], s)
    {
      OneLineMore(seen, lines, j, s);
      message', calls', log', finished := HandleLine(message', calls', log', lines[j], s);
      if finished {
        FinishedStays(seen + lines[..j + 1], lines[j + 1..], s);
        assert seen + lines[..j + 1] + lines[j + 1..] == seen + lines;
        return;
      }
    }
    assert lines[..|lines|] == lines;
  }

  /** What is reported for a text: what its lines say up to the first done line, and a failure if reading broke off
      before that. */
  function Reported(text: string, fails: bool, s: Setting): seq<Callback> {
    var p := LinesTaken(Lines(text), s);
    if fails && !p.finished then p.log + [Failed] else p.log
  }

  /** Whatever the chunks are, what is reported depends only on the text they make up: on its lines, in order, up to
      the first done line. Behind the last chunk the stream ends, or reading it fails. */
  method HandleStreamResponse(chunks: seq<string>, fails: bool, s: Setting) returns (log: seq<Callback>)
    ensures log == Reported(Joined(chunks), fails, s)
  {
    var buffer := "";
    var completeMessage := "";
    var calls: map<nat, ToolCall> := map[];
    var hasFinished := false;
    log := [];
    for k := 0 to |chunks|
      invariant !hasFinished && buffer == Residue(Joined(chunks[..k]))
      invariant Progress(completeMessage, calls, log, false) == LinesTaken(Lines(Joined(chunks[..k])), s)
    {
      ChunkTaken(chunks, k);
      ghost var seen := Lines(Joined(chunks[..k]));
      buffer := buffer + chunks[k];
      var parts := Split(buffer);
      var lines := parts[..|parts| - 1];
      buffer := parts[|parts| - 1];
      completeMessage, calls, log, hasFinished := HandleLines(completeMessage, calls, log, lines, s, seen);
      if hasFinished {
        TheRestIsIgnored(chunks, k + 1, s);
        return;
      }
    }
    assert chunks[..|chunks|] == chunks;
    if fails {
      log := log + [Failed];
    }
  }

  lemma ChunkTaken(chunks: seq<string>, k: nat)
    requires k < |chunks|
    ensures var buffer := Residue(Joined(chunks[..k])) + chunks[k];
            && Lines(Joined(chunks[..k + 1])) == Lines(Joined(chunks[..k])) + Lines(buffer)
            && Residue(Joined(chunks[..k + 1])) == Residue(buffer)
  {
    assert chunks[..k + 1][..k] == chunks[..k];
    SplitJoin(Joined(chunks[..k]), chunks[k]);
  }

  lemma OneLineMore(seen: seq<string>, lines: seq<string>, n: nat, s: Setting)
    requires n < |lines|
    ensures LinesTaken(seen + lines[..n + 1], s) == LineTaken(LinesTaken(seen + lines[..n], s), lines[n], s)
  {
    assert (seen + lines[..n + 1])[..|seen| + n] == seen + lines[..n];
  }

  lemma TheRestIsIgnored(chunks: seq<string>, k: nat, s: Setting)
    requires k <= |chunks| && LinesTaken(Lines(Joined(chunks[..k])), s).finished
    ensures LinesTaken(Lines(Joined(chunks)), s) == LinesTaken(Lines(Joined(chunks[..k])), s)
  {
    JoinedPrefix(chunks, k);
    var a, b := Joined(chunks[..k]), Joined(chunks);
    SplitJoin(a, b[|a|..]);
    assert b == a + b[|a|..];
    FinishedStays(Lines(a), Lines(Residue(a) + b[|a|..]), s);
  }

  // ---- What the report says ----

  function Contents(log: seq<Callback>): string {
    if log == [] then ""
    else
      var before, c := Contents(log[..|log| - 1]), log[|log| - 1];
      if c.Content? then before + c.text else before
  }

  /** The fragments of all the events, in order. */
  function Fragments(lines: seq<string>, s: Setting): seq<Fragment> {
    if lines == [] then []
    else
      var before, line := Fragments(lines[..|lines| - 1], s), lines[|lines| - 1];
      if !(DATA <= line) then before
      else
        match s.parse(line[6..])
        case None => before
        case Some(d) => before + d.fragments
  }

  lemma {:induction false} FragmentsAccumulate(calls: map<nat, ToolCall>, fs: seq<Fragment>, more: seq<Fragment>)
    ensures FragmentsTaken(FragmentsTaken(calls, fs), more) == FragmentsTaken(calls, fs + more)
  {
    if more == [] {
      assert fs + more == fs;
    } else {
      FragmentsAccumulate(calls, fs, more[..|more| - 1]);
      assert (fs + more)[..|fs + more| - 1] == fs + more[..|more| - 1];
    }
  }

  lemma ContentsSnoc(log: seq<Callback>, c: Callback)
    ensures Contents(log + [c]) == if c.Content? then Contents(log) + c.text else Contents(log)
  {
    assert (log + [c])[..|log|] == log;
  }

  lemma {:induction false} OnlyPiecesBeforeTheEnd(lines: seq<string>, s: Setting)
    requires DATA + DONE !in lines
    ensures !LinesTaken(lines, s).finished
    ensures forall c :: c in LinesTaken(lines, s).log ==> c.Reasoning? || c.Content?
  {
    if lines == [] {
    } else {
      var before, line := lines[..|lines| - 1], lines[|lines| - 1];
      OnlyPiecesBeforeTheEnd(before, s);
      if DATA <= line {
        assert line == DATA + line[6..];
      }
    }
  }

  /** The message is the content reported, and the calls are what the fragments add up to. */
  ghost predicate Means(p: Progress, fs: seq<Fragment>) {
    p.message == Contents(p.log) && p.calls == Accumulated(fs)
  }

  lemma DeltaKeepsMeaning(p: Progress, d: Delta, fs: seq<Fragment>)
    requires Means(p, fs)
    ensures Means(DeltaTaken(p, d), fs + d.fragments)
  {
    FragmentsAccumulate(map[], fs, d.fragments);
    ContentsSnoc(p.log, Reasoning(d.reasoning));
    var log1 := if d.reasoning != "" then p.log + [Reasoning(d.reasoning)] else p.log;
    ContentsSnoc(log1, Content(d.content));
  }

  lemma LineKeepsMeaning(p: Progress, line: string, s: Setting, fs: seq<Fragment>)
    requires !p.finished && Means(p, fs) && line != DATA + DONE
    ensures Means(LineTaken(p, line, s),
                  if DATA <= line && s.parse(line[6..]).Some? then fs + s.parse(line[6..]).value.fragments else fs)
  {
    if DATA <= line {
      assert line == DATA + line[6..];
      if s.parse(line[6..]).Some? {
        DeltaKeepsMeaning(p, s.parse(line[6..]).value, fs);
      }
    }
  }

  lemma {:induction false} ProgressMeansFragments(lines: seq<string>, s: Setting)
    requires DATA + DONE !in lines
    ensures Means(LinesTaken(lines, s), Fragments(lines, s))
  {
    if lines == [] {
    } else {
      var before, line := lines[..|lines| - 1], lines[|lines| - 1];
      ProgressMeansFragments(before, s);
      OnlyPiecesBeforeTheEnd(before, s);
      LineKeepsMeaning(LinesTaken(before, s), line, s, Fragments(before, s));
    }
  }

  /** Before the end, the message is the content reported so far, the calls are what the fragments so far add up to,
      and nothing was reported but reasoning and content. */
  lemma ProgressMeansLines(lines: seq<string>, s: Setting)
    requires DATA + DONE !in lines
    ensures var p := LinesTaken(lines, s);
            && !p.finished
            && p.message == Contents(p.log)
            && p.calls == Accumulated(Fragments(lines, s))
            && forall c :: c in p.log ==> c.Reasoning? || c.Content?
  {
    OnlyPiecesBeforeTheEnd(lines, s);
    ProgressMeansFragments(lines, s);
  }

  function FirstDone(lines: seq<string>): (n: nat)
    ensures n <= |lines| && DATA + DONE !in lines[..n]
    ensures n < |lines| ==> lines[n] == DATA + DONE
  {
    if lines == [] then 0
    else
      var n := FirstDone(lines[..|lines| - 1]);
      if n < |lines| - 1 then assert lines[..|lines| - 1][..n] == lines[..n]; n
      else if lines[|lines| - 1] == DATA + DONE then n
      else assert lines == lines[..|lines| - 1] + [lines[|lines| - 1]]; assert lines[..n + 1] == lines; n + 1
  }

  lemma DoneLineFinishes(before: seq<string>, s: Setting)
    requires !LinesTaken(before, s).finished
    ensures LinesTaken(before + [DATA + DONE], s) == Finished(LinesTaken(before, s), s)
  {
    assert (before + [DATA + DONE])[..|before|] == before;
    assert (DATA + DONE)[6..] == DONE;
  }

  lemma SplitAt(lines: seq<string>, n: nat)
    requires n < |lines|
    ensures lines == lines[..n] + [lines[n]] + lines[n + 1..]
  {
  }

  lemma FirstDoneFinishes(lines: seq<string>, s: Setting)
    requires FirstDone(lines) < |lines|
    ensures LinesTaken(lines, s) == Finished(LinesTaken(lines[..FirstDone(lines)], s), s)
  {
    var n := FirstDone(lines);
    var before, more := lines[..n], lines[n + 1..];
    SplitAt(lines, n);
    ProgressMeansLines(before, s);
    DoneLineFinishes(before, s);
    FinishedStays(before + [DATA + DONE], more, s);
  }

  /** With a done line, the report ends with what the lines before it add up to: the calls, if there are any, and then
      the whole message, once. Without one, it never ends. */
  lemma ReportMeansLines(lines: seq<string>, s: Setting)
    ensures var log, n := LinesTaken(lines, s).log, FirstDone(lines);
            var before := LinesTaken(lines[..n], s);
            var calls := Accumulated(Fragments(lines[..n], s));
            && (forall c :: c in before.log ==> c.Reasoning? || c.Content?)
            && (n == |lines| ==> log == before.log)
            && (n < |lines| ==>
                  log == before.log + (if calls != map[] then [ToolCalls(NamesRestored(calls, s))] else [])
                         + [Complete(Contents(before.log))])
  {
    var n := FirstDone(lines);
    ProgressMeansLines(lines[..n], s);
    if n < |lines| {
      FirstDoneFinishes(lines, s);
    } else {
      assert lines[..n] == lines;
    }
  }

  // ---- What the events say ----

  /** What is taken from the lines that hold an event, in order. */
  function Events(lines: seq<string>, s: Setting): seq<Delta> {
    if lines == [] then []
    else
      var before, line := Events(lines[..|lines| - 1], s), lines[|lines| - 1];
      if !(DATA <= line) then before
      else
        match s.parse(line[6..])
        case None => before
        case Some(d) => before + [d]
  }

  function AllContent(ds: seq<Delta>): string {
    if ds == [] then "" else AllContent(ds[..|ds| - 1]) + ds[|ds| - 1].content
  }

  function AllReasoning(ds: seq<Delta>): string {
    if ds == [] then "" else AllReasoning(ds[..|ds| - 1]) + ds[|ds| - 1].reasoning
  }

  /** A field is reported unless it is empty. */
  function Telling(c: Callback): seq<Callback>
    requires c.Reasoning? || c.Content?
  {
    if c.text == "" then [] else [c]
  }

  /** The reports on the fields of the events: an event's reasoning, then its content. */
  function Tellings(ds: seq<Delta>): seq<Callback> {
    if ds == [] then []
    else
      var d := ds[|ds| - 1];
      Tellings(ds[..|ds| - 1]) + Telling(Reasoning(d.reasoning)) + Telling(Content(d.content))
  }

  function Reasonings(log: seq<Callback>): string {
    if log == [] then ""
    else
      var before, c := Reasonings(log[..|log| - 1]), log[|log| - 1];
      if c.Reasoning? then before + c.text else before
  }

  lemma ReasoningsSnoc(log: seq<Callback>, c: Callback)
    ensures Reasonings(log + [c]) == if c.Reasoning? then Reasonings(log) + c.text else Reasonings(log)
  {
    assert (log + [c])[..|log|] == log;
  }

  lemma TellingJoins(log: seq<Callback>, c: Callback)
    requires c.Reasoning? || c.Content?
    ensures Contents(log + Telling(c)) == if c.Content? then Contents(log) + c.text else Contents(log)
    ensures Reasonings(log + Telling(c)) == if c.Reasoning? then Reasonings(log) + c.text else Reasonings(log)
  {
    if c.text == "" {
      assert log + [] == log;
      assert Contents(log) + "" == Contents(log) && Reasonings(log) + "" == Reasonings(log);
    } else {
      ContentsSnoc(log, c);
      ReasoningsSnoc(log, c);
    }
  }

  /** The pieces of content reported join to the events' content, the pieces of reasoning to their reasoning. */
  lemma {:induction false} TellingsJoin(ds: seq<Delta>)
    ensures Contents(Tellings(ds)) == AllContent(ds) && Reasonings(Tellings(ds)) == AllReasoning(ds)
  {
    if ds == [] {
    } else {
      var told, d := Tellings(ds[..|ds| - 1]), ds[|ds| - 1];
      TellingsJoin(ds[..|ds| - 1]);
      TellingJoins(told, Reasoning(d.reasoning));
      TellingJoins(told + Telling(Reasoning(d.reasoning)), Content(d.content));
    }
  }

  lemma DeltaTells(p: Progress, ds: seq<Delta>, d: Delta)
    requires p.log == Tellings(ds) && p.message == AllContent(ds)
    ensures DeltaTaken(p, d).log == Tellings(ds + [d]) && DeltaTaken(p, d).message == AllContent(ds + [d])
  {
    assert (ds + [d])[..|ds|] == ds;
    assert p.log + [] == p.log;
    var log := p.log + Telling(Reasoning(d.reasoning));
    assert log + [] == log;
  }

  lemma {:induction false} ProgressTellsEvents(lines: seq<string>, s: Setting)
    requires DATA + DONE !in lines
    ensures var p := LinesTaken(lines, s);
            !p.finished && p.log == Tellings(Events(lines, s)) && p.message == AllContent(Events(lines, s))
  {
    if lines == [] {
    } else {
      var before, line := lines[..|lines| - 1], lines[|lines| - 1];
      ProgressTellsEvents(before, s);
      if DATA <= line {
        assert line == DATA + line[6..];
        match s.parse(line[6..])
        case None =>
        case Some(d) => DeltaTells(LinesTaken(before, s), Events(before, s), d);
      }
    }
  }

  lemma EndTells(p: Progress, s: Setting)
    ensures p.calls == map[] ==> Finished(p, s).log == p.log + [Complete(p.message)]
    ensures p.calls != map[] ==>
              Finished(p, s).log == p.log + [ToolCalls(NamesRestored(p.calls, s)), Complete(p.message)]
  {
    assert p.log + [] == p.log;
  }

  /** With a done line the report is: the reasoning and the content of the events before it, field by field, then the
      calls, if there are any, and the whole content. */
  lemma DoneReportIsWhatEventsSay(text: string, fails: bool, s: Setting)
    requires DATA + DONE in Lines(text)
    ensures var before := Lines(text)[..FirstDone(Lines(text))];
            var events, calls := Events(before, s), Accumulated(Fragments(before, s));
            && (calls != map[] ==>
                  Reported(text, fails, s) ==
                  Tellings(events) + [ToolCalls(NamesRestored(calls, s)), Complete(AllContent(events))])
            && (calls == map[] ==> Reported(text, fails, s) == Tellings(events) + [Complete(AllContent(events))])
  {
    var lines := Lines(text);
    var before := lines[..FirstDone(lines)];
    assert FirstDone(lines) == |lines| ==> before == lines;
    FirstDoneFinishes(lines, s);
    ProgressTellsEvents(before, s);
    ProgressMeansLines(before, s);
    EndTells(LinesTaken(before, s), s);
  }

  /** Without one it is the reasoning and the content of all events, and then the failure, if reading broke off. */
  lemma OpenReportIsWhatEventsSay(text: string, fails: bool, s: Setting)
    requires DATA + DONE !in Lines(text)
    ensures Reported(text, fails, s) == Tellings(Events(Lines(text), s)) + if fails then [Failed] else []
  {
    ProgressTellsEvents(Lines(text), s);
  }

  lemma ContentsWithEnd(log: seq<Callback>, told: seq<Callback>, c: Callback)
    requires |told| <= 1 && (forall t :: t in told ==> t.ToolCalls?) && c.Complete?
    ensures Contents(log + told + [c]) == Contents(log)
  {
    ContentsSnoc(log + told, c);
    if |told| == 1 {
      assert told == [told[0]] && told[0] in told;
      ContentsSnoc(log, told[0]);
    } else {
      assert log + told == log;
    }
  }

  lemma CompletesOnDoneLine(text: string, s: Setting)
    ensures var log := LinesTaken(Lines(text), s).log;
            && ((exists m :: Complete(m) in log) <==> exists i: nat :: LineAt(text, i, DATA + DONE))
            && forall k, m :: 0 <= k < |log| && log[k] == Complete(m) ==> k == |log| - 1 && m == Contents(log)
  {
    var lines := Lines(text);
    var log, n := LinesTaken(lines, s).log, FirstDone(lines);
    LinesStandInText(text, DATA + DONE);
    ReportMeansLines(lines, s);
    if n < |lines| {
      var before := LinesTaken(lines[..n], s).log;
      var calls := Accumulated(Fragments(lines[..n], s));
      var told := if calls != map[] then [ToolCalls(NamesRestored(calls, s))] else [];
      ContentsWithEnd(before, told, Complete(Contents(before)));
      assert log[|log| - 1] == Complete(Contents(before));
      forall k | 0 <= k < |log| - 1 ensures !log[k].Complete? {
        assert k < |before| ==> log[k] == before[k] && before[k] in before;
      }
    } else {
      assert lines[..n] == lines;
    }
  }

  /** The end is reported if and only if the whole line "data: [DONE]" and its newline stand in the text; then it is
      reported once, last, with all the content reported before it. */
  lemma CompletesExactlyOnDoneLine(text: string, s: Setting)
    ensures var log := LinesTaken(Lines(text), s).log;
            && ((exists m :: Complete(m) in log) <==> exists i: nat :: LineAt(text, i, "data: [DONE]"))
            && forall k, m :: 0 <= k < |log| && log[k] == Complete(m) ==> k == |log| - 1 && m == Contents(log)
  {
    CompletesOnDoneLine(text, s);
    assert DATA + DONE == "data: [DONE]";
  }

  /** The calls delivered are, index by index, what that index's own fragments add up to. */
  lemma DeliveredCallsAreWhole(lines: seq<string>, s: Setting, m: map<nat, ToolCall>, i: nat)
    requires ToolCalls(m) in LinesTaken(lines, s).log
    ensures var mine := Only(Fragments(lines[..FirstDone(lines)], s), i);
            && (i in m <==> mine != [])
            && (i in m ==>
                  m[i] == if s.renames then Whole(mine, i).(name := Restored(LastName(mine), s.tools))
                          else Whole(mine, i))
  {
    var n := FirstDone(lines);
    var before, calls := LinesTaken(lines[..n], s).log, Accumulated(Fragments(lines[..n], s));
    ReportMeansLines(lines, s);
    if n < |lines| {
      ToldOnce(before, if calls != map[] then [ToolCalls(NamesRestored(calls, s))] else [],
               Complete(Contents(before)), ToolCalls(m));
    }
    CallsDoNotMix(Fragments(lines[..n], s), i);
  }

  lemma ToldOnce(log: seq<Callback>, told: seq<Callback>, end: Callback, c: Callback)
    requires c in log + told + [end] && c.ToolCalls? && !end.ToolCalls? && forall b :: b in log ==> !b.ToolCalls?
    ensures c in told
  {
  }

  /** A stream reports its end or its failure, never both: a failure exactly when reading breaks off before the done
      line has come in. */
  lemma FailsExactlyBeforeTheEnd(text: string, fails: bool, s: Setting)
    ensures Failed in Reported(text, fails, s) <==> fails && forall i: nat :: !LineAt(text, i, DATA + DONE)
    ensures forall m :: Complete(m) in Reported(text, fails, s) ==> Failed !in Reported(text, fails, s)
  {
    var lines := Lines(text);
    LinesStandInText(text, DATA + DONE);
    CompletesOnDoneLine(text, s);
    ReportMeansLines(lines, s);
    FinishesExactlyWhenDone(lines, s);
  }

  lemma FinishesExactlyWhenDone(lines: seq<string>, s: Setting)
    ensures LinesTaken(lines, s).finished <==> DATA + DONE in lines
  {
    if FirstDone(lines) < |lines| {
      FirstDoneFinishes(lines, s);
    } else {
      assert lines[..FirstDone(lines)] == lines;
      ProgressMeansLines(lines, s);
    }
  }

  /** A stream whose lines all end in a carriage return and a newline never completes. */
  lemma CarriageReturnsHideTheEnd(text: string, s: Setting)
    requires forall k :: 0 <= k < |text| && text[k] == '\n' ==> k > 0 && text[k - 1] == '\r'
    ensures forall m :: Complete(m) !in LinesTaken(Lines(text), s).log
  {
    CompletesExactlyOnDoneLine(text, s);
    forall i: nat ensures !LineAt(text, i, "data: [DONE]") {
      EndOfLine(text, i, "data: [DONE]");
    }
  }

  lemma EndOfLine(text: string, i: nat, line: string)
    requires line != ""
    ensures LineAt(text, i, line) ==>
              i + |line| < |text| && text[i + |line|] == '\n' && text[i + |line| - 1] == line[|line| - 1]
  {
  }
}
