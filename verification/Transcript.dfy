/**
 * Interpreting the research assistant's transcript without trusting its prose: completion is
 * recognised only from a confirmed result of the save tool.
 */
module Transcript {
  import opened Text
  import opened RuntimeValues

  datatype Poll =
    | StillRunning
    | EndedPartial
    | EndedFailed
    | SavedReport(brandBrainId: string, report: Value, qualityAccepted: Option<bool>, qualityFailures: seq<string>)

  // ----- Pieces -----

  function OrElse<T>(a: Option<T>, b: Option<T>): Option<T> { if a.Some? then a else b }

  predicate IsReport(v: Value) {
    TextField(v, "version") == Some("brand_research_v1") && Field(v, "evidence").Some? &&
        Field(v, "evidence").value.Arr?
  }

  /** `nestedValue`: the first report found under the known keys, at most five levels down. */
  function NestedValue(v: Value, depth: nat): Option<Value>
    decreases v, 1
  {
    if depth > 5 || !v.Obj? then None
    else if IsReport(v) then Some(v)
    else
      OrElse(NestedField(v, "report", depth), OrElse(NestedField(v, "input", depth),
      OrElse(NestedField(v, "arguments", depth),
          OrElse(NestedField(v, "params", depth), NestedField(v, "data", depth)))))
  }

  function NestedField(v: Value, key: string, depth: nat): Option<Value>
    decreases v, 0
  {
    if v.Obj? && key in v.fields then NestedValue(v.fields[key], depth + 1) else None
  }

  datatype Saved = Saved(brandBrainId: string, qualityAccepted: Option<bool>, qualityFailures: seq<string>)

  /** The confirmation carried by a record that says `saved: true`. */
  function Confirmation(v: Value): Option<Saved> {
    if HasField(v, "artifactSaved", Bool(true)) && TextField(v, "brandId").Some? &&
        !Blank(TextField(v, "brandId").value)
    then Some(Saved(Trim(TextField(v, "brandId").value),
                    match Field(v, "qualityAccepted") case Some(Bool(b)) => Some(b) case _ => None,
                    StringList(Field(v, "qualityFailures"))))
    else None
  }

  /** `savedBrandBrainResult`. */
  function SavedResult(v: Value): Option<Saved> {
    match v
    case Str(_, Some(w)) => SavedResult(w)
    case Obj(fields) =>
      if HasField(v, "saved", Bool(true)) then Confirmation(v)
      else OrElse(SavedField(v, "content"), OrElse(SavedField(v, "result"), SavedField(v, "data")))
    case _ => None
  }

  function SavedField(v: Value, key: string): Option<Saved>
    decreases v, 0
  {
    if v.Obj? && key in v.fields then SavedResult(v.fields[key]) else None
  }

  const SAVE_TOOL := "brand_research_save"

  function InputOf(call: Value): Value {
    match RecordField(call, "input")
    case Some(r) => r
    case None => Obj(map[])
  }

  /** The call is to the save tool, directly or wrapped. */
  predicate IsSaveCall(call: Value) {
    call.Obj? && (TextField(call, "name") == Some(SAVE_TOOL) || TextField(InputOf(call), "tool") == Some(SAVE_TOOL))
  }

  function ToolCalls(message: Value): seq<Value> {
    match Field(message, "toolCalls")
    case Some(Arr(calls)) => calls
    case _ => []
  }

  predicate FromAssistant(message: Value) { message.Obj? && TextField(message, "role") == Some("assistant") }

  /** What a save call settles: saved only with both a report and a confirmation. */
  function SaveOutcome(call: Value): Poll {
    var report := NestedValue(InputOf(call), 0);
    var saved := match Field(call, "result") case Some(v) => SavedResult(v) case None => None;
    if report.Some? && saved.Some?
    then SavedReport(saved.value.brandBrainId, report.value, saved.value.qualityAccepted, saved.value.qualityFailures)
    else EndedPartial
  }

  // ----- The prose marker -----

  datatype Marker = MarkerSaved | MarkerPartial | MarkerFailed

  function Lower(c: char): char { if 'A' <= c <= 'Z' then c + ('a' - 'A') else c }

  /** `word`, in lower case, is spelled at the start of `s`, ignoring ASCII case. */
  predicate Spells(s: string, word: string) {
    |word| <= |s| && forall i :: 0 <= i < |word| ==> Lower(s[i]) == word[i]
  }

  const LABEL := "worklin_research_run_status:"

  function MarkerHere(s: string): Option<Marker> {
    if !Spells(s, LABEL) then None
    else
      StatusWord(TrimStart(s[|LABEL|..]))
  }

  function StatusWord(s: string): Option<Marker> {
    if Spells(s, "saved") then Some(MarkerSaved)
    else if Spells(s, "partial") then Some(MarkerPartial)
    else if Spells(s, "failed") then Some(MarkerFailed)
    else None
  }

  /** The first marker in the text. */
  function FindMarker(s: string): Option<Marker> {
    if MarkerHere(s).Some? then MarkerHere(s) else if s == "" then None else FindMarker(s[1..])
  }

  // ----- One message, and the whole transcript -----

  function FirstSaveCall(calls: seq<Value>): Option<Value> {
    if calls == [] then None else if IsSaveCall(calls[0]) then Some(calls[0]) else FirstSaveCall(calls[1..])
  }

  /** What the message decides on its own, if anything: a save call first, then the prose marker. */
  function Verdict(message: Value): Option<Poll> {
    if !FromAssistant(message) then None
    else
      match FirstSaveCall(ToolCalls(message))
      case Some(call) => Some(SaveOutcome(call))
      case None =>
        var content := if TextField(message, "content").Some? then TextField(message, "content").value else "";
        match FindMarker(content)
        case None => None
        case Some(MarkerFailed) => Some(EndedFailed)
        case Some(_) => Some(EndedPartial)
  }

  /** The last decisive message decides. */
  ghost predicate LastDecisiveDecides(messages: seq<Value>, poll: Poll) {
    || (poll == StillRunning && forall i :: 0 <= i < |messages| ==> Verdict(messages[i]).None?)
    || (exists k :: DecidedAt(messages, k, poll))
  }

  /** Message `k` decides this way and none after it decides anything. */
  ghost predicate DecidedAt(messages: seq<Value>, k: nat, poll: Poll) {
    k < |messages| && Verdict(messages[k]) == Some(poll) && forall i :: k < i < |messages| ==>
        Verdict(messages[i]).None?
  }

  /** The inner loop: the first save call of a message, if it has one. */
  method ScanToolCalls(calls: seq<Value>) returns (call: Option<Value>)
    ensures call == FirstSaveCall(calls)
  {
    assert calls[0..] == calls;
    for i := 0 to |calls|
      invariant FirstSaveCall(calls) == FirstSaveCall(calls[i..])
    {
      assert calls[i..][1..] == calls[i + 1..];
      if IsSaveCall(calls[i]) { return Some(calls[i]); }
    }
    return None;
  }

  /** `readBrandResearchRuntimeResult`, without the child tasks it also reports. */
  method ReadRuntimeResult(transcript: Value) returns (poll: Poll)
    ensures !transcript.Arr? ==> poll == StillRunning
    ensures transcript.Arr? ==> LastDecisiveDecides(transcript.items, poll)
  {
    if !transcript.Arr? { return StillRunning; }
    var messages := transcript.items;
    for i := |messages| downto 0
      invariant forall j :: i <= j < |messages| ==> Verdict(messages[j]).None?
    {
      var message := messages[i];
      if !FromAssistant(message) { continue; }
      var call := ScanToolCalls(ToolCalls(message));
      if call.Some? {
        poll := SaveOutcome(call.value);
        assert DecidedAt(messages, i, poll);
        return;
      }
      var content := if TextField(message, "content").Some? then TextField(message, "content").value else "";
      var marker := FindMarker(content);
      if marker.None? { continue; }
      poll := if marker.value == MarkerFailed then EndedFailed else EndedPartial;
      assert DecidedAt(messages, i, poll);
      return;
    }
    return StillRunning;
  }

  /** The reading of a transcript is unique, so the method computes this function. */
  function Reading(messages: seq<Value>): Poll {
    if messages == [] then StillRunning
    else
      match Verdict(messages[|messages| - 1])
      case Some(poll) => poll
      case None => Reading(messages[..|messages| - 1])
  }

  lemma {:induction false} ReadingIsUnique(messages: seq<Value>, poll: Poll)
    ensures LastDecisiveDecides(messages, poll) <==> poll == Reading(messages)
  {
    hide Verdict;
    if messages != [] {
      var n := |messages| - 1;
      ReadingIsUnique(messages[..n], poll);
      DecidesStep(messages, poll);
    }
  }

  /** The last message decides if it can, and otherwise leaves it to those before. */
  lemma DecidesStep(messages: seq<Value>, poll: Poll)
    requires messages != []
    ensures var n := |messages| - 1;
            LastDecisiveDecides(messages, poll) <==>
              if Verdict(messages[n]).Some? then Verdict(messages[n]) == Some(poll)
                  else LastDecisiveDecides(messages[..n], poll)
  {
    hide Verdict;
    var n := |messages| - 1;
    var before := messages[..n];
    if LastDecisiveDecides(messages, poll) && Verdict(messages[n]).None? {
      if k :| DecidedAt(messages, k, poll) { assert DecidedAt(before, k, poll); }
    }
    if LastDecisiveDecides(before, poll) && Verdict(messages[n]).None? {
      if k :| DecidedAt(before, k, poll) { assert DecidedAt(messages, k, poll); }
    }
    if Verdict(messages[n]) == Some(poll) { assert DecidedAt(messages, n, poll); }
  }

  // ----- What the reading guarantees -----

  /** Appending messages that decide nothing never changes the reading. */
  lemma {:induction false} IndecisiveTailIgnored(messages: seq<Value>, more: seq<Value>)
    requires forall i :: 0 <= i < |more| ==> Verdict(more[i]).None?
    ensures Reading(messages + more) == Reading(messages)
  {
    hide Verdict;
    if more == [] {
      assert messages + more == messages;
    } else {
      var n := |more| - 1;
      assert (messages + more)[..|messages + more| - 1] == messages + more[..n];
      IndecisiveTailIgnored(messages, more[..n]);
    }
  }

  /** The record says that the brand brain and its artifact were saved, under this id and with this quality. */
  ghost predicate ConfirmsHere(v: Value, x: Saved) {
    && v.Obj? && "artifactSaved" in v.fields && v.fields["artifactSaved"] == Bool(true)
    && "brandId" in v.fields && v.fields["brandId"].Str?
    && x.brandBrainId == Trim(v.fields["brandId"].text) && x.brandBrainId != ""
    && x.qualityAccepted == (if "qualityAccepted" in v.fields && v.fields["qualityAccepted"].Bool?
                             then Some(v.fields["qualityAccepted"].b) else None)
    && x.qualityFailures == StringList(Field(v, "qualityFailures"))
  }

  ghost predicate WrapperKey(key: string) { key == "content" || key == "result" || key == "data" }

  /** Such a record is the value, is parsed out of it, or is in its `content`, `result` or `data`. */
  ghost predicate Confirms(v: Value, x: Saved) {
    match v
    case Str(_, Some(w)) => Confirms(w, x)
    case Obj(fields) =>
      if "saved" in fields && fields["saved"] == Bool(true) then ConfirmsHere(v, x)
      else exists key :: key in fields && WrapperKey(key) && Confirms(fields[key], x)
    case _ => false
  }

  /** A confirmation is found exactly when there is one, and what is found is one. */
  lemma {:induction false} SavedIsConfirmed(v: Value)
    ensures SavedResult(v).Some? ==> SavedResult(v).value.brandBrainId != "" && Confirms(v, SavedResult(v).value)
    ensures SavedResult(v).Some? <==> exists x :: Confirms(v, x)
    decreases v
  {
    hide Trim, StringList;
    match v
    case Str(_, Some(w)) =>
      SavedIsConfirmed(w);
      if x :| Confirms(v, x) { assert Confirms(w, x); }
    case Obj(fields) =>
      if HasField(v, "saved", Bool(true)) {
        ConfirmationExactly(v);
      } else {
        forall key | key in fields { SavedIsConfirmed(fields[key]); }
        if x :| Confirms(v, x) {
          var key :| key in fields && WrapperKey(key) && Confirms(fields[key], x);
          assert SavedResult(fields[key]).Some?;
          assert SavedField(v, key).Some?;
        }
      }
    case _ =>
  }

  lemma ConfirmationExactly(v: Value)
    requires v.Obj?
    ensures Confirmation(v).Some? ==> ConfirmsHere(v, Confirmation(v).value)
    ensures Confirmation(v).Some? <==> exists x :: ConfirmsHere(v, x)
  {
    hide Trim, StringList;
    if x :| ConfirmsHere(v, x) { assert Confirmation(v).Some?; }
  }

  /** A record of the report version with an evidence list. */
  ghost predicate LooksLikeReport(v: Value) {
    && v.Obj? && "version" in v.fields && v.fields["version"].Str? && v.fields["version"].text == "brand_research_v1"
    && "evidence" in v.fields && v.fields["evidence"].Arr?
  }

  ghost predicate NestingKey(key: string) {
    key == "report" || key == "input" || key == "arguments" || key == "params" || key == "data"
  }

  /** `r` is a report at most `levels` fields below `v`, by the keys that may nest one. */
  ghost predicate ReportWithin(v: Value, r: Value, levels: nat) {
    || (v == r && LooksLikeReport(r))
    || (levels > 0 && v.Obj? &&
        exists key :: key in v.fields && NestingKey(key) && ReportWithin(v.fields[key], r, levels - 1))
  }

  ghost predicate HasReport(v: Value, levels: nat) { exists r :: ReportWithin(v, r, levels) }

  /** A report is found exactly when there is one within five levels, and what is found is one. */
  lemma {:induction false} NestedIsReport(v: Value, depth: nat)
    requires depth <= 5
    ensures NestedValue(v, depth).Some? ==> ReportWithin(v, NestedValue(v, depth).value, 5 - depth)
    ensures NestedValue(v, depth).Some? <==> HasReport(v, 5 - depth)
    decreases v
  {
    assert IsReport(v) <==> LooksLikeReport(v);
    if v.Obj? && !IsReport(v) {
      if depth < 5 {
        forall key | key in v.fields { NestedIsReport(v.fields[key], depth + 1); }
        hide LooksLikeReport, IsReport;
        if HasReport(v, 5 - depth) {
          var levels := 5 - depth;
          var r :| ReportWithin(v, r, levels);
          if v != r || !LooksLikeReport(r) {
            var key :| key in v.fields && NestingKey(key) && ReportWithin(v.fields[key], r, 4 - depth);
            assert HasReport(v.fields[key], 4 - depth);
            assert NestedField(v, key, depth).Some?;
          }
        }
      } else {
        forall key | key in v.fields ensures NestedValue(v.fields[key], depth + 1).None? { }
      }
    }
  }

  /** A call to the save tool by name, or to another tool with the save tool named in its input. */
  ghost predicate CallsSaveTool(call: Value) {
    && call.Obj?
    && (|| ("name" in call.fields && call.fields["name"].Str? && call.fields["name"].text == "brand_research_save")
        || ("input" in call.fields && call.fields["input"].Obj? && "tool" in call.fields["input"].fields
            && call.fields["input"].fields["tool"].Str?
            && call.fields["input"].fields["tool"].text == "brand_research_save"))
  }

  lemma SaveCallExactly(call: Value)
    ensures IsSaveCall(call) <==> CallsSaveTool(call)
  {
  }

  /** The message calls the save tool with this report inside its input and a result confirming this. */
  ghost predicate ConfirmedSave(message: Value, x: Saved, report: Value) {
    exists i :: 0 <= i < |ToolCalls(message)| && ConfirmedCall(ToolCalls(message)[i], x, report)
  }

  ghost predicate ConfirmedCall(call: Value, x: Saved, report: Value) {
    && CallsSaveTool(call)
    && "input" in call.fields && call.fields["input"].Obj? && ReportWithin(call.fields["input"], report, 5)
    && "result" in call.fields && Confirms(call.fields["result"], x)
  }

  lemma {:induction false} FirstSaveCallIsCall(calls: seq<Value>)
    ensures FirstSaveCall(calls).Some? ==> FirstSaveCall(calls).value in calls && IsSaveCall(FirstSaveCall(calls).value)
    ensures FirstSaveCall(calls).None? <==> forall i :: 0 <= i < |calls| ==> !IsSaveCall(calls[i])
  {
    hide IsSaveCall;
    if calls != [] {
      FirstSaveCallIsCall(calls[1..]);
      if FirstSaveCall(calls[1..]).Some? && !IsSaveCall(calls[0]) {
        var c := FirstSaveCall(calls[1..]).value;
        var i :| 0 <= i < |calls[1..]| && calls[1..][i] == c;
        assert calls[i + 1] == c;
      }
      assert forall i :: 0 <= i < |calls[1..]| ==> calls[1..][i] == calls[i + 1];
    }
  }

  ghost function SavedOf(poll: Poll): Saved
    requires poll.SavedReport?
  {
    Saved(poll.brandBrainId, poll.qualityAccepted, poll.qualityFailures)
  }

  lemma NoReportInNothing()
    ensures NestedValue(Obj(map[]), 0).None?
  {
  }

  lemma SaveOutcomeConfirmed(call: Value)
    requires IsSaveCall(call) && SaveOutcome(call).SavedReport?
    ensures SaveOutcome(call).brandBrainId != ""
    ensures ConfirmedCall(call, SavedOf(SaveOutcome(call)), SaveOutcome(call).report)
  {
    NoReportInNothing();
    SaveCallExactly(call);
    hide NestedValue, SavedResult, ReportWithin, Confirms, CallsSaveTool, IsSaveCall;
    NestedIsReport(InputOf(call), 0);
    SavedIsConfirmed(Field(call, "result").value);
  }

  lemma VerdictConfirmed(message: Value)
    requires Verdict(message).Some? && Verdict(message).value.SavedReport?
    ensures FromAssistant(message)
    ensures Verdict(message).value.brandBrainId != ""
    ensures ConfirmedSave(message, SavedOf(Verdict(message).value), Verdict(message).value.report)
  {
    hide SaveOutcome, FindMarker, IsSaveCall, ConfirmedCall;
    var calls := ToolCalls(message);
    FirstSaveCallIsCall(calls);
    var call := FirstSaveCall(calls).value;
    SaveOutcomeConfirmed(call);
    var i :| 0 <= i < |calls| && calls[i] == call;
  }

  /**
   * `saved` is reported only for an assistant message that called the save tool with a report
   * in its input and got back a confirmation with a non-blank brand id, the very id reported.
   */
  lemma {:induction false} SavedNeedsConfirmation(messages: seq<Value>)
    requires Reading(messages).SavedReport?
    ensures Reading(messages).brandBrainId != ""
    ensures exists k :: 0 <= k < |messages| && FromAssistant(messages[k]) &&
                        ConfirmedSave(messages[k], SavedOf(Reading(messages)), Reading(messages).report)
  {
    hide Verdict, ConfirmedSave, FromAssistant;
    var n := |messages| - 1;
    if Verdict(messages[n]).Some? {
      VerdictConfirmed(messages[n]);
    } else {
      SavedNeedsConfirmation(messages[..n]);
      var k :| 0 <= k < |messages[..n]| && FromAssistant(messages[..n][k]) &&
               ConfirmedSave(messages[..n][k], SavedOf(Reading(messages[..n])), Reading(messages[..n]).report);
      assert messages[k] == messages[..n][k];
    }
  }

  ghost predicate CallsSave(message: Value) {
    FromAssistant(message) && exists i :: 0 <= i < |ToolCalls(message)| && CallsSaveTool(ToolCalls(message)[i])
  }

  /** Without a save call nothing is ever reported saved, whatever the prose says. */
  lemma ProseNeverSaves(messages: seq<Value>)
    requires forall k :: 0 <= k < |messages| ==> !CallsSave(messages[k])
    ensures !Reading(messages).SavedReport?
  {
    hide Verdict, Reading, CallsSaveTool, FromAssistant, ReportWithin, Confirms, ToolCalls;
    if Reading(messages).SavedReport? { SavedNeedsConfirmation(messages); }
  }

  /** Within a message, a save call decides whatever the prose says. */
  lemma SaveCallBeatsProse(message: Value, other: Value)
    requires CallsSave(message) && FromAssistant(other) && ToolCalls(other) == ToolCalls(message)
    ensures Verdict(message) == Verdict(other) && Verdict(message).Some?
  {
    FirstSaveCallIsCall(ToolCalls(message));
    var i :| 0 <= i < |ToolCalls(message)| && CallsSaveTool(ToolCalls(message)[i]);
    SaveCallExactly(ToolCalls(message)[i]);
    hide SaveOutcome, FindMarker, IsSaveCall, CallsSaveTool;
  }

  /**
   * And conversely: the first save call of an assistant message decides it, and reads as saved
   * whenever its input holds a report and its result a confirmation, with the quality that
   * confirmation states; otherwise it reads as partial.
   */
  lemma SaveCallReads(message: Value, k: nat)
    requires message.Obj? && "role" in message.fields && message.fields["role"].Str?
    requires message.fields["role"].text == "assistant"
    requires "toolCalls" in message.fields && message.fields["toolCalls"].Arr?
    requires k < |message.fields["toolCalls"].items| && CallsSaveTool(message.fields["toolCalls"].items[k])
    requires forall i :: 0 <= i < k ==> !CallsSaveTool(message.fields["toolCalls"].items[i])
    ensures var call := message.fields["toolCalls"].items[k];
            && Verdict(message).Some?
            && (Verdict(message) == Some(EndedPartial) || Verdict(message).value.SavedReport?)
            && (Verdict(message).value.SavedReport? <==> exists x, r :: ConfirmedCall(call, x, r))
            && (Verdict(message).value.SavedReport? ==>
                  ConfirmedCall(call, SavedOf(Verdict(message).value), Verdict(message).value.report))
  {
    var calls := message.fields["toolCalls"].items;
    var call := calls[k];
    assert ToolCalls(message) == calls && FromAssistant(message);
    forall i | 0 <= i <= k ensures IsSaveCall(calls[i]) <==> CallsSaveTool(calls[i]) { SaveCallExactly(calls[i]); }
    FirstIsFound(calls, k);
    assert Verdict(message) == Some(SaveOutcome(call));
    OutcomeExactly(call);
    hide Verdict, SaveOutcome, ConfirmedCall, CallsSaveTool, IsSaveCall;
    if SaveOutcome(call).SavedReport? { SaveOutcomeConfirmed(call); }
  }

  lemma {:induction false} FirstIsFound(calls: seq<Value>, k: nat)
    requires k < |calls| && IsSaveCall(calls[k]) && forall i :: 0 <= i < k ==> !IsSaveCall(calls[i])
    ensures FirstSaveCall(calls) == Some(calls[k])
  {
    hide IsSaveCall;
    if k > 0 { FirstIsFound(calls[1..], k - 1); }
  }

  lemma OutcomeExactly(call: Value)
    requires CallsSaveTool(call)
    ensures SaveOutcome(call) == EndedPartial || SaveOutcome(call).SavedReport?
    ensures SaveOutcome(call).SavedReport? <==> exists x, r :: ConfirmedCall(call, x, r)
  {
    SaveCallExactly(call);
    if SaveOutcome(call).SavedReport? { SaveOutcomeConfirmed(call); }
    hide NestedValue, SavedResult, ReportWithin, IsSaveCall;
    if x, r :| ConfirmedCall(call, x, r) {
      assert HasReport(call.fields["input"], 5);
      NestedIsReport(call.fields["input"], 0);
      assert NestedValue(call.fields["input"], 0).Some?;
      assert Confirms(call.fields["result"], x);
      SavedIsConfirmed(call.fields["result"]);
      assert SavedResult(call.fields["result"]).Some?;
      assert InputOf(call) == call.fields["input"] && Field(call, "result") == Some(call.fields["result"]);
    }
  }

  // ----- What the prose says -----

  /** The first position where a marker starts decides. */
  lemma {:induction false} FirstMarkerFound(s: string, k: nat)
    requires k <= |s| && MarkerHere(s[k..]).Some? && forall i :: 0 <= i < k ==> MarkerHere(s[i..]).None?
    ensures FindMarker(s) == MarkerHere(s[k..])
  {
    hide MarkerHere;
    assert s[0..] == s;
    if k > 0 {
      assert forall i :: 0 <= i <= |s[1..]| ==> s[1..][i..] == s[i + 1..];
      FirstMarkerFound(s[1..], k - 1);
    }
  }

  /** The label in capitals, a space and a status word, whatever follows. */
  lemma MarkerRead(rest: string)
    ensures MarkerHere("WORKLIN_RESEARCH_RUN_STATUS:" + (" saved" + rest)) == Some(MarkerSaved)
    ensures MarkerHere("WORKLIN_RESEARCH_RUN_STATUS:" + (" partial" + rest)) == Some(MarkerPartial)
    ensures MarkerHere("WORKLIN_RESEARCH_RUN_STATUS:" + (" failed" + rest)) == Some(MarkerFailed)
  {
    assert " saved" + rest == " " + ("saved" + rest);
    assert " partial" + rest == " " + ("partial" + rest);
    assert " failed" + rest == " " + ("failed" + rest);
    LabelRead(" saved" + rest);
    LabelRead(" partial" + rest);
    LabelRead(" failed" + rest);
    WordRead("saved", rest);
    WordRead("partial", rest);
    WordRead("failed", rest);
    StatusWords(rest);
    hide LABEL, Spells, StatusWord, TrimStart;
  }

  lemma StatusWords(rest: string)
    ensures StatusWord("saved" + rest) == Some(MarkerSaved)
    ensures StatusWord("partial" + rest) == Some(MarkerPartial)
    ensures StatusWord("failed" + rest) == Some(MarkerFailed)
  {
    WordRead("saved", rest);
    WordRead("partial", rest);
    WordRead("failed", rest);
    assert Lower(("partial" + rest)[0]) == 'p' && Lower(("failed" + rest)[0]) == 'f';
    assert !Spells("partial" + rest, "saved");
    assert !Spells("failed" + rest, "saved") && !Spells("failed" + rest, "partial");
  }

  lemma LabelRead(rest: string)
    ensures var s := "WORKLIN_RESEARCH_RUN_STATUS:" + rest; Spells(s, LABEL) && s[|LABEL|..] == rest
  {
  }

  lemma WordRead(word: string, rest: string)
    requires word != "" && forall i :: 0 <= i < |word| ==> 'a' <= word[i] <= 'z'
    ensures TrimStart(" " + (word + rest)) == word + rest && Spells(word + rest, word)
  {
    assert (" " + (word + rest))[1..] == word + rest;
  }

  /** Prose without a save call ends the run as failed or partial, by its marker, and never as saved. */
  lemma ProseReads(message: Value)
    requires message.Obj? && "role" in message.fields && message.fields["role"].Str?
    requires message.fields["role"].text == "assistant"
    requires forall i :: 0 <= i < |ToolCalls(message)| ==> !CallsSaveTool(ToolCalls(message)[i])
    requires "content" in message.fields && message.fields["content"].Str?
    ensures Verdict(message) ==
            match FindMarker(message.fields["content"].text)
            case None => None
            case Some(MarkerFailed) => Some(EndedFailed)
            case Some(_) => Some(EndedPartial)
  {
    var calls := ToolCalls(message);
    forall i | 0 <= i < |calls| ensures !IsSaveCall(calls[i]) { SaveCallExactly(calls[i]); }
    FirstSaveCallIsCall(calls);
  }
}
