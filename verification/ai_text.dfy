/** The text handling of the AI service (backend/src/services/aiService.ts):
    the cleanup of a model reply, the parser that turns reply lines into
    message suggestions, the cut to three, the fixed fallback list, and the
    split of a summary reply into a headline and insights. The model reply
    itself is an input; `None` stands for a failed model call. */
module AiText {
  import opened Wrappers
  import opened Text

  /** A message suggestion (the image URL is not part of this model). */
  datatype Suggestion = Suggestion(message: string, tone: string)

  datatype Summary = Summary(summary: string, insights: seq<string>)

  const NO_SUMMARY: string := "Campaign summary not available"

  // The pieces of the fallback suggestions.
  const INACTIVE_OPENER: string := "We noticed you haven't been active lately. "
  const MISS_YOU: string := "We miss you!"
  const SPECIAL_OFFER: string := "Here's a special offer just for you!"
  const EXCLUSIVE: string := "Exclusive "
  const OPPORTUNITY: string := " opportunity waiting for you!"
  const DONT_MISS: string := "Don't miss out on our latest "
  const CAMPAIGN: string := " campaign!"
  const FRIENDLY: string := "friendly"
  const EXCITING: string := "exciting"
  const URGENT: string := "urgent"

  /** A string without white space at either end. */
  predicate Trimmed(s: string) {
    s == [] || (!IsSpace(s[0]) && !IsSpace(s[|s| - 1]))
  }

  /** What the cleanup keeps of one line: its trim, unless that is empty. */
  function CleanLine(line: string): (r: seq<string>)
    ensures |r| <= 1
    ensures forall k :: 0 <= k < |r| ==> r[k] != "" && Trimmed(r[k])
  {
    var t := Trim(line);
    if t == "" then [] else [t]
  }

  /** Each line trimmed, empty lines dropped, order kept. */
  function CleanLines(lines: seq<string>): (r: seq<string>)
    ensures |r| <= |lines|
    ensures forall k :: 0 <= k < |r| ==> r[k] != "" && Trimmed(r[k])
  {
    if |lines| == 0 then []
    else CleanLine(lines[0]) + CleanLines(lines[1..])
  }

  /** Cleaning works line by line: it distributes over concatenation ... */
  lemma {:induction false} CleanLinesAppend(a: seq<string>, b: seq<string>)
    ensures CleanLines(a + b) == CleanLines(a) + CleanLines(b)
  {
    if |a| > 0 {
      var head, rest := CleanLine(a[0]), CleanLines(a[1..]);
      CleanLinesAppend(a[1..], b);
      DropAppend(a, b);
      calc {
        CleanLines(a + b);
        head + CleanLines(a[1..] + b);
        head + (rest + CleanLines(b));
        { SeqAssoc(head, rest, CleanLines(b)); }
        (head + rest) + CleanLines(b);
      }
    } else {
      assert a + b == b;
    }
  }

  /** ... and keeps a single line exactly when its trim is not empty, as that trim. */
  lemma CleanLinesSingle(line: string)
    ensures CleanLines([line]) == if Trim(line) == "" then [] else [Trim(line)]
  {
    assert [line][1..] == [];
  }

  /** Cleaning brings in no line break. */
  lemma {:induction false} CleanLinesNoBreak(lines: seq<string>)
    requires forall k :: 0 <= k < |lines| ==> '\n' !in lines[k]
    ensures forall k :: 0 <= k < |CleanLines(lines)| ==> '\n' !in CleanLines(lines)[k]
  {
    if |lines| > 0 {
      CleanLinesNoBreak(lines[1..]);
      TrimKeepsAbsent(lines[0], '\n');
      assert CleanLines(lines) == CleanLine(lines[0]) + CleanLines(lines[1..]);
    }
  }

  /** Cleaned lines are a fixpoint of the cleaning. */
  lemma {:induction false} CleanLinesFixpoint(lines: seq<string>)
    requires forall k :: 0 <= k < |lines| ==> lines[k] != "" && Trimmed(lines[k])
    ensures CleanLines(lines) == lines
  {
    if |lines| > 0 {
      CleanLinesFixpoint(lines[1..]);
      TrimmedFixpoint(lines[0]);
      assert CleanLines(lines) == [lines[0]] + CleanLines(lines[1..]);
      assert lines == [lines[0]] + lines[1..];
    }
  }

  /** The cleanup of a model reply: split at line breaks, trim each line,
      drop the empty ones, join with line breaks. */
  function Cleanup(text: string): (r: string)
    ensures r == "" <==> CleanLines(Split(text, '\n')) == []
    ensures r != "" ==> Split(r, '\n') == CleanLines(Split(text, '\n'))
  {
    var lines := CleanLines(Split(text, '\n'));
    if lines == [] then Join(lines, '\n')
    else
      CleanLinesNoBreak(Split(text, '\n'));
      SplitJoin(lines, '\n');
      Join(lines, '\n')
  }

  /** A cleaned reply is empty, or every one of its lines is non-empty and
      equal to its own trim. */
  lemma CleanupLines(text: string)
    ensures var lines := Split(Cleanup(text), '\n');
      Cleanup(text) == "" || forall k :: 0 <= k < |lines| ==> lines[k] != "" && Trim(lines[k]) == lines[k]
  {
    if Cleanup(text) != "" {
      var lines := CleanLines(Split(text, '\n'));
      forall k | 0 <= k < |lines|
        ensures Trim(lines[k]) == lines[k]
      {
        TrimmedFixpoint(lines[k]);
      }
    }
  }

  /** Cleaning twice is cleaning once. */
  lemma CleanupIdempotent(text: string)
    ensures Cleanup(Cleanup(text)) == Cleanup(text)
  {
    var c := Cleanup(text);
    var lines := CleanLines(Split(text, '\n'));
    if c != "" {
      CleanLinesFixpoint(lines);
      assert CleanLines(Split(c, '\n')) == lines;
    } else {
      assert Split(c, '\n') == [""];
      assert CleanLines([""]) == [];
    }
  }

  /** The length of the run of digits that starts `s`. */
  function DigitRun(s: string): (n: nat)
    ensures n <= |s|
    ensures forall k :: 0 <= k < n ==> IsDigit(s[k])
    ensures n < |s| ==> !IsDigit(s[n])
  {
    if |s| > 0 && IsDigit(s[0]) then 1 + DigitRun(s[1..]) else 0
  }

  /** The length of the run of white space that starts `s`. */
  function SpaceRun(s: string): (n: nat)
    ensures n <= |s|
    ensures forall k :: 0 <= k < n ==> IsSpace(s[k])
    ensures n < |s| ==> !IsSpace(s[n])
  {
    if |s| > 0 && IsSpace(s[0]) then 1 + SpaceRun(s[1..]) else 0
  }

  /** The length of the match of `/^\d+\.\s*\/` at the start of `line`, or 0. */
  function ListNumberLength(line: string): (n: nat)
    ensures n <= |line|
    ensures n > 0 ==> 0 < DigitRun(line) < |line| && line[DigitRun(line)] == '.' && DigitRun(line) < n
    ensures n > 0 ==> forall k :: DigitRun(line) < k < n ==> IsSpace(line[k])
    ensures n > 0 && n < |line| ==> !IsSpace(line[n])
    ensures n == 0 ==> DigitRun(line) == 0 || DigitRun(line) == |line| || line[DigitRun(line)] != '.'
  {
    var d := DigitRun(line);
    if 0 < d < |line| && line[d] == '.' then d + 1 + SpaceRun(line[d + 1..]) else 0
  }

  /** The match is the longest one: any end that the pattern allows after
      the digits and the dot is the one found. */
  lemma ListNumberLongest(line: string, m: nat)
    requires 0 < DigitRun(line) < m <= |line| && line[DigitRun(line)] == '.'
    requires forall k :: DigitRun(line) < k < m ==> IsSpace(line[k])
    requires m < |line| ==> !IsSpace(line[m])
    ensures ListNumberLength(line) == m
  {
  }

  /** `line.replace(/^\d+\.\s*\/, '')`: a leading list number ("12. ") is removed. */
  function StripListNumber(line: string): (r: string)
    ensures r == line[ListNumberLength(line)..]
  {
    line[ListNumberLength(line)..]
  }

  /** A stripped and trimmed line split at its last `|`, both sides
      trimmed; no `|`, or an empty side, gives nothing. */
  function SplitTone(clean: string): (r: Option<Suggestion>)
    ensures '|' !in clean ==> r.None?
    ensures r.Some? ==>
      && r.value.message != "" && r.value.tone != ""
      && Trimmed(r.value.message) && Trimmed(r.value.tone)
      && '|' !in r.value.tone
  {
    var p := LastIndexOf(clean, '|');
    if p == -1 then None
    else
      var message := Trim(clean[..p]);
      var tone := Trim(clean[p + 1..]);
      TrimKeepsAbsent(clean[p + 1..], '|');
      if message == "" || tone == "" then None else Some(Suggestion(message, tone))
  }

  /** The split is at the last `|`: whatever precedes it, other `|`
      included, is the message. */
  lemma SplitAtLastPipe(message: string, tone: string)
    requires '|' !in tone && Trim(message) != "" && Trim(tone) != ""
    ensures SplitTone(message + ['|'] + tone) == Some(Suggestion(Trim(message), Trim(tone)))
  {
    var clean := message + ['|'] + tone;
    var p := |message|;
    PipeJoinParts(message, tone);
    LastIndexOfAt(clean, '|', p);
    SplitToneAt(clean, p);
  }

  lemma PipeJoinParts(message: string, tone: string)
    ensures var clean := message + ['|'] + tone;
      && |message| < |clean| && clean[|message|] == '|'
      && clean[..|message|] == message && clean[|message| + 1..] == tone
  {
    var clean := message + ['|'] + tone;
    assert clean[..|message|] == message;
    assert clean[|message| + 1..] == tone;
  }

  lemma SplitToneAt(clean: string, p: nat)
    requires p < |clean| && LastIndexOf(clean, '|') == p
    requires Trim(clean[..p]) != "" && Trim(clean[p + 1..]) != ""
    ensures SplitTone(clean) == Some(Suggestion(Trim(clean[..p]), Trim(clean[p + 1..])))
  {
  }

  /** One reply line: strip a list number and trim, then split at the last `|`. */
  function ParseLine(line: string): (r: Option<Suggestion>)
    ensures r.Some? ==> WellFormed(r.value)
  {
    SplitTone(Trim(StripListNumber(line)))
  }

  /** One line, kept unless it is blank. */
  function KeepNonBlank(line: string): (r: seq<string>)
    ensures |r| <= 1
    ensures forall k :: 0 <= k < |r| ==> Trim(r[k]) != ""
  {
    if Trim(line) == "" then [] else [line]
  }

  /** The lines that hold more than white space, unchanged and in order. */
  function NonBlank(lines: seq<string>): (r: seq<string>)
    ensures |r| <= |lines|
    ensures forall k :: 0 <= k < |r| ==> Trim(r[k]) != ""
  {
    if |lines| == 0 then []
    else KeepNonBlank(lines[0]) + NonBlank(lines[1..])
  }

  /** Dropping blank lines works line by line: it distributes over
      concatenation ... */
  lemma {:induction false} NonBlankAppend(a: seq<string>, b: seq<string>)
    ensures NonBlank(a + b) == NonBlank(a) + NonBlank(b)
  {
    if |a| > 0 {
      var head, rest := KeepNonBlank(a[0]), NonBlank(a[1..]);
      NonBlankAppend(a[1..], b);
      DropAppend(a, b);
      calc {
        NonBlank(a + b);
        head + NonBlank(a[1..] + b);
        head + (rest + NonBlank(b));
        { SeqAssoc(head, rest, NonBlank(b)); }
        (head + rest) + NonBlank(b);
      }
    } else {
      assert a + b == b;
    }
  }

  lemma SeqAssoc(x: seq<string>, y: seq<string>, z: seq<string>)
    ensures x + (y + z) == (x + y) + z
  {
  }

  lemma HeadTail(lines: seq<string>)
    requires |lines| > 0
    ensures [lines[0]] + lines[1..] == lines
  {
  }

  lemma DropAppend(a: seq<string>, b: seq<string>)
    requires |a| > 0
    ensures (a + b)[0] == a[0] && (a + b)[1..] == a[1..] + b
  {
  }

  /** ... and keeps a single line, unchanged, exactly when it is not blank. */
  lemma NonBlankSingle(line: string)
    ensures NonBlank([line]) == if Trim(line) == "" then [] else [line]
  {
    assert [line][1..] == [];
  }

  /** The values of the present options, in order (`.filter(msg => msg !== null)`). */
  function Present(os: seq<Option<Suggestion>>): (r: seq<Suggestion>)
    ensures |r| <= |os|
    ensures forall s :: s in r <==> Some(s) in os
  {
    if |os| == 0 then []
    else
      var rest := Present(os[1..]);
      assert forall o :: o in os <==> o == os[0] || o in os[1..];
      if os[0].Some? then [os[0].value] + rest else rest
  }

  lemma {:induction false} PresentAppend(a: seq<Option<Suggestion>>, b: seq<Option<Suggestion>>)
    ensures Present(a + b) == Present(a) + Present(b)
  {
    if |a| > 0 {
      PresentAppend(a[1..], b);
      assert (a + b)[1..] == a[1..] + b;
    } else {
      assert a + b == b;
    }
  }

  /** Each line mapped on its own (`.map(...)`). */
  function MapLines(f: string -> Option<Suggestion>, lines: seq<string>): (r: seq<Option<Suggestion>>)
    ensures |r| == |lines|
    ensures forall k :: 0 <= k < |lines| ==> r[k] == f(lines[k])
  {
    seq(|lines|, k requires 0 <= k < |lines| => f(lines[k]))
  }

  lemma MapLinesAppend(f: string -> Option<Suggestion>, a: seq<string>, b: seq<string>)
    ensures MapLines(f, a + b) == MapLines(f, a) + MapLines(f, b)
  {
  }

  /** The suggestions of the lines that parse, one each, in line order. */
  function ParseLines(lines: seq<string>): (r: seq<Suggestion>)
    ensures |r| <= |lines|
  {
    Present(MapLines(ParseLine, lines))
  }

  /** A suggestion as the parser emits it: a non-empty trimmed message and
      a non-empty trimmed tone free of `|`. */
  predicate WellFormed(s: Suggestion) {
    '|' !in s.tone && s.message != "" && s.tone != "" && Trimmed(s.message) && Trimmed(s.tone)
  }

  lemma PresentWellFormed(f: string -> Option<Suggestion>, lines: seq<string>)
    requires forall x :: f(x).Some? ==> WellFormed(f(x).value)
    ensures forall s :: s in Present(MapLines(f, lines)) ==> WellFormed(s)
  {
  }

  /** Every parsed suggestion is well formed. */
  lemma ParsedWellFormed(lines: seq<string>)
    ensures forall s :: s in ParseLines(lines) ==> WellFormed(s)
  {
    PresentWellFormed(ParseLine, lines);
  }

  /** Parsing distributes over concatenation: the suggestions keep the order
      of the lines they come from. */
  lemma ParseLinesAppend(a: seq<string>, b: seq<string>)
    ensures ParseLines(a + b) == ParseLines(a) + ParseLines(b)
  {
    MapLinesAppend(ParseLine, a, b);
    PresentAppend(MapLines(ParseLine, a), MapLines(ParseLine, b));
  }

  /** A line yields a suggestion exactly when it parses on its own. */
  lemma ParseSingleLine(line: string)
    ensures ParseLine(line).Some? ==> ParseLines([line]) == [ParseLine(line).value]
    ensures ParseLine(line).None? ==> ParseLines([line]) == []
  {
    PresentMapSingle(ParseLine, line);
  }

  lemma PresentMapSingle(f: string -> Option<Suggestion>, line: string)
    ensures f(line).Some? ==> Present(MapLines(f, [line])) == [f(line).value]
    ensures f(line).None? ==> Present(MapLines(f, [line])) == []
  {
    var os := MapLines(f, [line]);
    assert os == [f(line)];
    assert os[1..] == [];
  }

  /** The suggestions of a reply. */
  function ParseSuggestions(text: string): (r: seq<Suggestion>)
    ensures |r| <= |Split(text, '\n')|
    ensures forall s :: s in r ==> WellFormed(s)
  {
    ParsedWellFormed(NonBlank(Split(text, '\n')));
    ParseLines(NonBlank(Split(text, '\n')))
  }

  /** At most the first three suggestions. */
  function TopThree(s: seq<Suggestion>): (r: seq<Suggestion>)
    ensures |r| <= 3 && r <= s
    ensures |s| >= 3 ==> |r| == 3
    ensures |s| < 3 ==> r == s
  {
    if |s| <= 3 then s else s[..3]
  }

  /** The fixed suggestions used when the model call or the parse fails. */
  function Fallback(objective: string): (r: seq<Suggestion>)
    ensures |r| == 3
    ensures r[0].tone == FRIENDLY && r[1].tone == EXCITING && r[2].tone == URGENT
    ensures Contains(objective, "inactive") ==> r[0].message == INACTIVE_OPENER + MISS_YOU
    ensures !Contains(objective, "inactive") ==> r[0].message == INACTIVE_OPENER + SPECIAL_OFFER
    ensures r[1].message == EXCLUSIVE + LowerAscii(objective) + OPPORTUNITY
    ensures r[2].message == DONT_MISS + LowerAscii(objective) + CAMPAIGN
  {
    [ Suggestion(INACTIVE_OPENER + (if Contains(objective, "inactive") then MISS_YOU else SPECIAL_OFFER), FRIENDLY),
      Suggestion(EXCLUSIVE + LowerAscii(objective) + OPPORTUNITY, EXCITING),
      Suggestion(DONT_MISS + LowerAscii(objective) + CAMPAIGN, URGENT) ]
  }

  /** `generateMessageSuggestions`: the first three suggestions parsed from
      the cleaned reply; the fallback when the call failed or no line parsed. */
  function GenerateMessageSuggestions(objective: string, reply: Option<string>): (r: seq<Suggestion>)
    ensures 1 <= |r| <= 3
    ensures reply.None? ==> r == Fallback(objective)
    ensures reply.Some? && ParseSuggestions(Cleanup(reply.value)) == [] ==> r == Fallback(objective)
    ensures reply.Some? && ParseSuggestions(Cleanup(reply.value)) != [] ==>
      var parsed := ParseSuggestions(Cleanup(reply.value));
      r <= parsed && |r| == (if |parsed| < 3 then |parsed| else 3)
  {
    if reply.None? then Fallback(objective)
    else
      var parsed := ParseSuggestions(Cleanup(reply.value));
      if |parsed| == 0 then Fallback(objective) else TopThree(parsed)
  }

  /** `generateCampaignSummary`: the first non-blank line is the summary, the
      other non-blank lines the insights, in order. `text` is the reply as
      `generateWithOllama` returns it, that is, already passed through
      `Cleanup`; the function itself assumes nothing about it. */
  function Summarize(text: string): (r: Summary)
    ensures var lines := NonBlank(Split(text, '\n'));
      && (lines == [] ==> r == Summary(NO_SUMMARY, []))
      && (lines != [] ==> [r.summary] + r.insights == lines)
  {
    var lines := NonBlank(Split(text, '\n'));
    if |lines| == 0 then Summary(NO_SUMMARY, [])
    else
      HeadTail(lines);
      Summary(lines[0], lines[1..])
  }
}
