/**
  The reply parser inside `ReactAgent._process_response` of agent.py: the
  reply is stripped and cut into lines; the last line starting with
  `ACTION:` names the tool, and the last line starting with `PARAMETERS:`
  opens the parameter text, which runs on over the following lines up to
  the next line starting with a marker. The parameter text is decoded as
  JSON, with one retry on the span from the first `{` to the last `}`.
  `json.loads` is a parameter.
*/
module LineReply {
  import opened Wrappers
  import opened Text
  import opened JsonModel

  /** `response.strip().split('\n')`. */
  function Lines(response: string): seq<string> {
    Split(Strip(response), '\n')
  }

  /** A line that ends the parameter text: it starts with one of the markers
      `THOUGHT:`, `ACTION:` or `OBSERVATION:`. */
  predicate IsMarker(line: string) {
    StartsWith(line, "THOUGHT:") || StartsWith(line, "ACTION:") || StartsWith(line, "OBSERVATION:")
  }

  predicate IsActionLine(line: string) {
    StartsWith(line, "ACTION:")
  }

  predicate IsParametersLine(line: string) {
    StartsWith(line, "PARAMETERS:")
  }

  /** `line.replace('ACTION:', '').strip()`. */
  function ActionValue(line: string): string {
    Strip(RemoveAll(line, "ACTION:"))
  }

  /** Where the parameter text that continues at line `j` stops: the first
      marker line at or after `j`, or the end. */
  function ContinuationEnd(lines: seq<string>, j: nat): (r: nat)
    requires j <= |lines|
    ensures j <= r <= |lines|
    ensures forall k | j <= k < r :: !IsMarker(lines[k])
    ensures r == |lines| || IsMarker(lines[r])
    decreases |lines| - j
  {
    if j == |lines| || IsMarker(lines[j]) then j else ContinuationEnd(lines, j + 1)
  }

  /** Each continuation line, preceded by a newline. */
  function Continuation(lines: seq<string>): string {
    if |lines| == 0 then "" else Continuation(lines[..|lines| - 1]) + "\n" + lines[|lines| - 1]
  }

  /** The parameter text opened by the `PARAMETERS:` line at index `i`. */
  function ParametersText(lines: seq<string>, i: nat): string
    requires i < |lines|
  {
    ParametersHead(lines[i]) + Continuation(lines[i + 1..ContinuationEnd(lines, i + 1)])
  }

  /** `line.replace('PARAMETERS:', '').strip()`. */
  function ParametersHead(line: string): string {
    Strip(RemoveAll(line, "PARAMETERS:"))
  }

  /** `action_line` and `parameters_line` after the scan. */
  datatype Scanned = Scanned(actionLine: Option<string>, parametersLine: Option<string>)

  /** The two variables after the scan has looked at the first `n` lines. */
  function ScanPrefix(lines: seq<string>, n: nat): Scanned
    requires n <= |lines|
  {
    if n == 0 then Scanned(None, None)
    else
      var s := ScanPrefix(lines, n - 1);
      if IsActionLine(lines[n - 1]) then s.(actionLine := Some(ActionValue(lines[n - 1])))
      else if IsParametersLine(lines[n - 1]) then s.(parametersLine := Some(ParametersText(lines, n - 1)))
      else s
  }

  function Scan(lines: seq<string>): Scanned {
    ScanPrefix(lines, |lines|)
  }

  /** The loop over the lines, with the inner loop that gathers the
      parameter text. */
  method ScanLines(lines: seq<string>) returns (actionLine: Option<string>, parametersLine: Option<string>)
    ensures Scanned(actionLine, parametersLine) == Scan(lines)
  {
    actionLine := None;
    parametersLine := None;
    for i := 0 to |lines|
      invariant Scanned(actionLine, parametersLine) == ScanPrefix(lines, i)
    {
      if IsActionLine(lines[i]) {
        actionLine := Some(ActionValue(lines[i]));
      } else if IsParametersLine(lines[i]) {
        var parametersText := GatherParameters(lines, i);
        parametersLine := Some(parametersText);
      }
    }
  }

  /** The inner `while j` loop: the rest of the `PARAMETERS:` line, then each
      following line up to the next marker line. */
  method GatherParameters(lines: seq<string>, i: nat) returns (parametersText: string)
    requires i < |lines|
    ensures parametersText == ParametersText(lines, i)
  {
    var marker: string -> bool := IsMarker;
    var first := ParametersHead(lines[i]);
    parametersText := first;
    var j := i + 1;
    while j < |lines| && !marker(lines[j])
      invariant i + 1 <= j <= |lines|
      invariant forall k | i + 1 <= k < j :: !IsMarker(lines[k])
      invariant parametersText == first + Continuation(lines[i + 1..j])
      decreases |lines| - j
    {
      ContinuationGrows(first, lines, i + 1, j);
      parametersText := parametersText + "\n" + lines[j];
      j := j + 1;
    }
    ContinuationEndIs(lines, i + 1, j);
  }

  /** One more continuation line extends the text by a newline and the line. */
  lemma ContinuationGrows(first: string, lines: seq<string>, start: nat, j: nat)
    requires start <= j < |lines|
    ensures first + Continuation(lines[start..j + 1]) == first + Continuation(lines[start..j]) + "\n" + lines[j]
  {
    assert lines[start..j + 1][..j - start] == lines[start..j];
  }

  /** The end of a continuation is the first marker after its start. */
  lemma {:induction false} ContinuationEndIs(lines: seq<string>, j: nat, e: nat)
    requires j <= e <= |lines|
    requires forall k | j <= k < e :: !IsMarker(lines[k])
    requires e == |lines| || IsMarker(lines[e])
    ensures ContinuationEnd(lines, j) == e
    decreases e - j
  {
    if j < e {
      ContinuationEndIs(lines, j + 1, e);
    }
  }

  /** Index of the last line satisfying the line predicate among the first `n`. */
  function LastActionIndex(lines: seq<string>, n: nat): (r: Option<nat>)
    requires n <= |lines|
    ensures r.None? <==> forall k | 0 <= k < n :: !IsActionLine(lines[k])
    ensures r.Some? ==> r.value < n && IsActionLine(lines[r.value])
    ensures r.Some? ==> forall k | r.value < k < n :: !IsActionLine(lines[k])
  {
    if n == 0 then None
    else if IsActionLine(lines[n - 1]) then Some(n - 1)
    else LastActionIndex(lines, n - 1)
  }

  function LastParametersIndex(lines: seq<string>, n: nat): (r: Option<nat>)
    requires n <= |lines|
    ensures r.None? <==> forall k | 0 <= k < n :: !IsParametersLine(lines[k])
    ensures r.Some? ==> r.value < n && IsParametersLine(lines[r.value])
    ensures r.Some? ==> forall k | r.value < k < n :: !IsParametersLine(lines[k])
  {
    if n == 0 then None
    else if IsParametersLine(lines[n - 1]) then Some(n - 1)
    else LastParametersIndex(lines, n - 1)
  }

  /** The last `ACTION:` line wins, and so does the last `PARAMETERS:` line:
      the scan's results are exactly those lines' values, and are absent
      exactly when there is no such line. */
  lemma {:induction false} ScanLastWins(lines: seq<string>, n: nat)
    requires n <= |lines|
    ensures var s := ScanPrefix(lines, n);
      && (s.actionLine.None? <==> LastActionIndex(lines, n).None?)
      && (s.actionLine.Some? ==> s.actionLine.value == ActionValue(lines[LastActionIndex(lines, n).value]))
      && (s.parametersLine.None? <==> LastParametersIndex(lines, n).None?)
      && (s.parametersLine.Some? ==>
            s.parametersLine.value == ParametersText(lines, LastParametersIndex(lines, n).value))
    decreases n
  {
    if n > 0 {
      ScanLastWins(lines, n - 1);
      // A line cannot start with both markers: their first letters differ.
      assert IsActionLine(lines[n - 1]) ==> lines[n - 1][0] == 'A';
      assert IsParametersLine(lines[n - 1]) ==> lines[n - 1][0] == 'P';
    }
  }

  /** Whitespace around the whole reply does not change what is scanned. */
  lemma LinesIgnorePadding(pre: string, response: string, post: string)
    requires AllSpace(pre) && AllSpace(post)
    ensures Lines(pre + response + post) == Lines(response)
  {
    StripPadded(pre, response, post);
  }

  /** Markers count only at the very start of a line: a line that begins
      with white space is neither an action line, a parameters line nor a
      marker, whatever follows, and a line that begins with a marker is
      one, whatever follows. */
  lemma MarkersAtLineStart(line: string, rest: string)
    requires |line| > 0 && IsSpace(line[0])
    ensures !IsActionLine(line) && !IsParametersLine(line) && !IsMarker(line)
    ensures IsActionLine("ACTION:" + rest) && IsMarker("ACTION:" + rest)
    ensures IsParametersLine("PARAMETERS:" + rest)
    ensures IsMarker("THOUGHT:" + rest) && IsMarker("OBSERVATION:" + rest)
  {
    assert ("ACTION:" + rest)[..7] == "ACTION:";
    assert ("PARAMETERS:" + rest)[..11] == "PARAMETERS:";
    assert ("THOUGHT:" + rest)[..8] == "THOUGHT:";
    assert ("OBSERVATION:" + rest)[..12] == "OBSERVATION:";
  }

  /** `re.search(r'\{.*\}', text, re.DOTALL)`: from the first `{` to the last
      `}`; None when there is no `}` after the first `{`. */
  function BraceSpan(s: string): Option<string> {
    match FirstOf(s, '{')
    case None => None
    case Some(i) =>
      match LastOf(s, '}')
      case None => None
      case Some(k) => if i < k then Some(s[i..k + 1]) else None
  }

  /** `s.find(c)`, None for -1. */
  function FirstOf(s: string, c: char): (r: Option<nat>)
    ensures r.None? <==> forall j | 0 <= j < |s| :: s[j] != c
    ensures r.Some? ==> r.value < |s| && s[r.value] == c && forall j | 0 <= j < r.value :: s[j] != c
  {
    if |s| == 0 then None
    else if s[0] == c then Some(0)
    else match FirstOf(s[1..], c)
      case None => None
      case Some(k) => Some(k + 1)
  }

  /** `s.rfind(c)`, None for -1. */
  function LastOf(s: string, c: char): (r: Option<nat>)
    ensures r.None? <==> forall j | 0 <= j < |s| :: s[j] != c
    ensures r.Some? ==> r.value < |s| && s[r.value] == c && forall j | r.value < j < |s| :: s[j] != c
  {
    if |s| == 0 then None
    else if s[|s| - 1] == c then Some(|s| - 1)
    else LastOf(s[..|s| - 1], c)
  }

  /** The span is there exactly when some `{` precedes some `}`. */
  lemma BraceSpanPresent(s: string)
    ensures BraceSpan(s).Some? <==> exists i, k | 0 <= i < k < |s| :: s[i] == '{' && s[k] == '}'
  {
    if exists i, k | 0 <= i < k < |s| :: s[i] == '{' && s[k] == '}' {
      var i, k :| 0 <= i < k < |s| && s[i] == '{' && s[k] == '}';
      FirstOfLeast(s, '{', i);
      LastOfGreatest(s, '}', k);
    }
  }

  /** The span is the widest one: it starts with `{` and ends with `}`, no
      `{` comes before it and no `}` after it. */
  lemma BraceSpanWidest(s: string)
    requires BraceSpan(s).Some?
    ensures exists i, k | 0 <= i < k < |s| :: BraceSpanAt(s, i, k)
  {
    var i, k := FirstOf(s, '{').value, LastOf(s, '}').value;
    assert BraceSpanAt(s, i, k);
  }

  /** The span of `s` runs from index `i` to index `k`, both included. */
  predicate BraceSpanAt(s: string, i: nat, k: nat)
    requires i < k < |s|
  {
    && BraceSpan(s) == Some(s[i..k + 1])
    && s[i] == '{' && s[k] == '}'
    && (forall j | 0 <= j < i :: s[j] != '{')
    && (forall j | k < j < |s| :: s[j] != '}')
  }

  lemma FirstOfLeast(s: string, c: char, i: nat)
    requires i < |s| && s[i] == c
    ensures FirstOf(s, c).Some? && FirstOf(s, c).value <= i
  {
  }

  lemma LastOfGreatest(s: string, c: char, k: nat)
    requires k < |s| && s[k] == c
    ensures LastOf(s, c).Some? && k <= LastOf(s, c).value
  {
  }

  /** The parameters `_process_response` dispatches with: `{}` when there is
      no parameter text or it is empty; otherwise what `json.loads` makes of
      it; on a decoding error, what it makes of the brace span; `{}` when
      that is missing or does not decode either. */
  function DecodeParameters(parametersLine: Option<string>, loads: string -> Option<Json>): (r: Json)
    ensures parametersLine.None? || parametersLine.value == "" ==> r == JObject(map[])
    ensures parametersLine.Some? && parametersLine.value != "" && loads(parametersLine.value).Some? ==>
      r == loads(parametersLine.value).value
    ensures r == JObject(map[])
      || (parametersLine.Some? && Some(r) == loads(parametersLine.value))
      || (parametersLine.Some? && BraceSpan(parametersLine.value).Some?
          && Some(r) == loads(BraceSpan(parametersLine.value).value))
  {
    if parametersLine.None? || parametersLine.value == "" then JObject(map[])
    else match loads(parametersLine.value)
      case Some(j) => j
      case None =>
        match BraceSpan(parametersLine.value)
        case None => JObject(map[])
        case Some(span) => loads(span).GetOr(JObject(map[]))
  }

  /** When the text does not decode but its brace span does, the span's
      value is used: text around a JSON object is tolerated. */
  lemma BraceRetryRecovers(text: string, loads: string -> Option<Json>)
    requires text != "" && loads(text).None?
    requires BraceSpan(text).Some? && loads(BraceSpan(text).value).Some?
    ensures DecodeParameters(Some(text), loads) == loads(BraceSpan(text).value).value
  {
  }

  /** The tool request read off a reply: None when there is no `ACTION:`
      line or its value is empty (`if not action_line`). */
  datatype LineAction = LineAction(toolName: string, parameters: Json)

  function ParseLines(response: string, loads: string -> Option<Json>): (r: Option<LineAction>)
    ensures r.Some? ==> r.value.toolName != "" && Strip(r.value.toolName) == r.value.toolName
    ensures r.None? <==> Scan(Lines(response)).actionLine.None? || Scan(Lines(response)).actionLine.value == ""
  {
    var s := Scan(Lines(response));
    if s.actionLine.None? || s.actionLine.value == "" then None
    else
      ScanLastWins(Lines(response), |Lines(response)|);
      StripIdempotent(RemoveAll(Lines(response)[LastActionIndex(Lines(response), |Lines(response)|).value], "ACTION:"));
      Some(LineAction(s.actionLine.value, DecodeParameters(s.parametersLine, loads)))
  }

  /** The method form of the parsing half of `_process_response`. */
  method ParseReply(response: string, loads: string -> Option<Json>) returns (r: Option<LineAction>)
    ensures r == ParseLines(response, loads)
  {
    var lines := Split(Strip(response), '\n');
    var actionLine, parametersLine := ScanLines(lines);
    if actionLine.None? || actionLine.value == "" {
      return None;
    }
    var parameters := JObject(map[]);
    if parametersLine.Some? && parametersLine.value != "" {
      var decoded := loads(parametersLine.value);
      if decoded.Some? {
        parameters := decoded.value;
      } else {
        var span := BraceSpan(parametersLine.value);
        if span.Some? {
          var retried := loads(span.value);
          if retried.Some? {
            parameters := retried.value;
          }
        }
      }
    }
    r := Some(LineAction(actionLine.value, parameters));
  }
}
