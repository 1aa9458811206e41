/**
 * The unified-diff parser of the generic-examples check: it recovers, from the text of a
 * diff, every added line with its line number in the new file and the line before it.
 */
module UnifiedDiff {
  import opened Text

  datatype AddedLine = AddedLine(file: string, line: int, content: string, previousContent: string)

  predicate StartsWith(s: string, prefix: string) {
    |prefix| <= |s| && forall i :: 0 <= i < |prefix| ==> s[i] == prefix[i]
  }

  // ----- Numbers -----

  predicate IsDigit(c: char) { '0' <= c <= '9' }

  function DigitSpan(s: string): (n: nat)
    ensures n <= |s|
    ensures forall i :: 0 <= i < n ==> IsDigit(s[i])
  {
    if s == "" || !IsDigit(s[0]) then 0 else 1 + DigitSpan(s[1..])
  }

  function Value(digits: string): nat
    requires forall i :: 0 <= i < |digits| ==> IsDigit(digits[i])
  {
    if digits == "" then 0
    else
      assert IsDigit(digits[|digits| - 1]);
      10 * Value(digits[..|digits| - 1]) + (digits[|digits| - 1] as int - '0' as int)
  }

  function Decimal(n: nat): (s: string)
    ensures s != "" && forall i :: 0 <= i < |s| ==> IsDigit(s[i])
  {
    if n < 10 then [(n + '0' as int) as char] else Decimal(n / 10) + [(n % 10 + '0' as int) as char]
  }

  lemma {:induction false} ValueOfDecimal(n: nat)
    ensures Value(Decimal(n)) == n
  {
    var s := Decimal(n);
    if n < 10 {
      assert s[..0] == "";
    } else {
      assert s[..|s| - 1] == Decimal(n / 10);
      ValueOfDecimal(n / 10);
    }
  }

  lemma {:induction false} SpanOfDigits(digits: string, rest: string)
    requires forall i :: 0 <= i < |digits| ==> IsDigit(digits[i])
    requires rest == "" || !IsDigit(rest[0])
    ensures DigitSpan(digits + rest) == |digits|
  {
    if digits == "" {
      assert digits + rest == rest;
    } else {
      assert (digits + rest)[1..] == digits[1..] + rest;
      SpanOfDigits(digits[1..], rest);
    }
  }

  // ----- The parser -----

  predicate LineTerminator(c: char) { c == '\n' || c == '\r' || c == '\U{2028}' || c == '\U{2029}' }

  /** The path of a `+++ b/path` line; empty for anything else, such as `/dev/null` or a quoted path. */
  function FileOf(raw: string): string {
    if StartsWith(raw, "+++ b/") && forall i :: 6 <= i < |raw| ==> !LineTerminator(raw[i]) then raw[6..] else ""
  }

  /** The optional `,count` of a range. */
  function SkipCount(s: string): string {
    if s != "" && s[0] == ',' && DigitSpan(s[1..]) > 0 then s[1 + DigitSpan(s[1..])..] else s
  }

  /** The new-file start of a hunk header, if the line is one. */
  function HunkStart(raw: string): Option<nat> {
    if !StartsWith(raw, "@@ -") then None
    else
      var s := raw[4..];
      var k := DigitSpan(s);
      if k == 0 then None
      else
        var t := SkipCount(s[k..]);
        if !StartsWith(t, " +") then None
        else
          var u := t[2..];
          var m := DigitSpan(u);
          if m == 0 then None
          else if StartsWith(SkipCount(u[m..]), " @@") then Some(Value(u[..m]))
          else None
  }

  type Recent = map<string, map<int, string>>

  datatype Parser = Parser(file: string, newLine: int, recent: Recent, added: seq<AddedLine>)

  function Lines(recent: Recent, file: string): map<int, string> {
    if file in recent then recent[file] else map[]
  }

  /** One iteration of the loop. */
  function StepLine(p: Parser, raw: string): Parser {
    if StartsWith(raw, "+++ ") then
      var f := FileOf(raw);
      p.(file := f, recent := if f != "" && f !in p.recent then p.recent[f := map[]] else p.recent)
    else if StartsWith(raw, "@@") then
      (match HunkStart(raw)
       case Some(n) => p.(newLine := n)
       case None => p)
    else if p.file == "" then p
    else if StartsWith(raw, "+") && !StartsWith(raw, "+++") then
      var shown := Lines(p.recent, p.file);
      var previous := if p.newLine - 1 in shown then shown[p.newLine - 1] else "";
      p.(newLine := p.newLine + 1,
         recent := p.recent[p.file := shown[p.newLine := raw[1..]]],
         added := p.added + [AddedLine(p.file, p.newLine, raw[1..], previous)])
    else if StartsWith(raw, "-") && !StartsWith(raw, "---") then p
    else if StartsWith(raw, " ") then
      p.(newLine := p.newLine + 1, recent := p.recent[p.file := Lines(p.recent, p.file)[p.newLine := raw[1..]]])
    else p
  }

  function Fold(p: Parser, lines: seq<string>): Parser {
    if lines == [] then p else StepLine(Fold(p, lines[..|lines| - 1]), lines[|lines| - 1])
  }

  const START: Parser := Parser("", 0, map[], [])

  lemma FoldNone()
    ensures Fold(START, []) == START
  {
  }

  lemma FoldNext(lines: seq<string>, i: nat)
    requires i < |lines|
    ensures Fold(START, lines[..i + 1]) == StepLine(Fold(START, lines[..i]), lines[i])
  {
    assert lines[..i + 1][..i] == lines[..i] && lines[..i + 1][i] == lines[i];
  }

  /** `parseUnifiedDiff`. */
  method ParseUnifiedDiff(diff: string) returns (added: seq<AddedLine>)
    ensures added == Fold(START, Split(diff, '\n')).added
  {
    hide Fold;
    FoldNone();
    added := [];
    var currentFile := "";
    var currentNewLine := 0;
    var recent: Recent := map[];
    var lines := Split(diff, '\n');
    assert lines[..0] == [];
    for i := 0 to |lines|
      invariant Parser(currentFile, currentNewLine, recent, added) == Fold(START, lines[..i])
    {
      FoldNext(lines, i);
      var raw := lines[i];
      if StartsWith(raw, "+++ ") {
        currentFile := FileOf(raw);
        if currentFile != "" && currentFile !in recent { recent := recent[currentFile := map[]]; }
        continue;
      }
      if StartsWith(raw, "@@") {
        var start := HunkStart(raw);
        if start.Some? { currentNewLine := start.value; }
        continue;
      }
      if currentFile == "" { continue; }
      if StartsWith(raw, "+") && !StartsWith(raw, "+++") {
        var shown := Lines(recent, currentFile);
        var previous := if currentNewLine - 1 in shown then shown[currentNewLine - 1] else "";
        recent := recent[currentFile := shown[currentNewLine := raw[1..]]];
        added := added + [AddedLine(currentFile, currentNewLine, raw[1..], previous)];
        currentNewLine := currentNewLine + 1;
      } else if StartsWith(raw, "-") && !StartsWith(raw, "---") {
      } else if StartsWith(raw, " ") {
        recent := recent[currentFile := Lines(recent, currentFile)[currentNewLine := raw[1..]]];
        currentNewLine := currentNewLine + 1;
      }
    }
    assert lines[..|lines|] == lines;
  }

  // ----- Diffs as structures -----

  datatype HunkLine = Context(text: string) | Added(text: string) | Removed(text: string) | NoNewline(text: string)

  datatype Range = Range(start: nat, count: Option<nat>)

  datatype Hunk = Hunk(oldRange: Range, newRange: Range, section: string, lines: seq<HunkLine>)

  /**
   * The `+++` line of a file: none (a pure rename or mode change), a deleted file, a path as it
   * is, or a path git writes in quotes, escaped in some way.
   */
  datatype Target = Absent | DevNull | Plain(path: string) | Quoted(path: string, text: string)

  /** Git ends the line with a tab when the path has a space. */
  function TargetLine(t: Target): string
    requires !t.Absent?
  {
    match t
    case DevNull => "+++ /dev/null"
    case Plain(path) => "+++ b/" + path + (if ' ' in path then "\t" else "")
    case Quoted(_, text) => "+++ \"" + text
  }

  /** One file of a diff: its header lines, its `+++` line and its hunks. */
  datatype FileDiff = FileDiff(preamble: seq<string>, target: Target, hunks: seq<Hunk>)

  function RenderRange(r: Range): string {
    Decimal(r.start) + (match r.count case Some(c) => "," + Decimal(c) case None => "")
  }

  function RenderLine(l: HunkLine): string {
    match l
    case Context(t) => " " + t
    case Added(t) => "+" + t
    case Removed(t) => "-" + t
    case NoNewline(t) => "\\" + t
  }

  function RenderLines(ls: seq<HunkLine>): (r: seq<string>)
    ensures |r| == |ls|
  {
    if ls == [] then [] else RenderLines(ls[..|ls| - 1]) + [RenderLine(ls[|ls| - 1])]
  }

  function HunkHeader(h: Hunk): string {
    "@@ -" + (RenderRange(h.oldRange) + (" +" + (RenderRange(h.newRange) + (" @@" + h.section))))
  }

  function RenderHunk(h: Hunk): seq<string> { [HunkHeader(h)] + RenderLines(h.lines) }

  function RenderHunks(hs: seq<Hunk>): seq<string> {
    if hs == [] then [] else RenderHunks(hs[..|hs| - 1]) + RenderHunk(hs[|hs| - 1])
  }

  function RenderFile(d: FileDiff): seq<string> {
    d.preamble + ((if d.target.Absent? then [] else [TargetLine(d.target)]) + RenderHunks(d.hunks))
  }

  function RenderDiff(ds: seq<FileDiff>): seq<string> {
    if ds == [] then [] else RenderDiff(ds[..|ds| - 1]) + RenderFile(ds[|ds| - 1])
  }

  /** Header lines (`diff --git`, `index`, `--- a/...`, mode and rename lines) are none of the parser's markers. */
  ghost predicate QuietLine(s: string) {
    s == "" || (s[0] != '+' && s[0] != ' ' && s[0] != '@')
  }

  ghost predicate WellFormedFile(d: FileDiff) {
    && (forall i :: 0 <= i < |d.preamble| ==> QuietLine(d.preamble[i]))
    && (d.target.Absent? ==> d.hunks == [])
    && (d.target.Plain? || d.target.Quoted? ==> d.target.path != "")
  }

  /** The file name the parser sees; empty for a deleted file, a quoted path or no `+++` line. */
  function NameOf(d: FileDiff): string { if d.target.Absent? then "" else FileOf(TargetLine(d.target)) }

  ghost predicate PlainAdds(ls: seq<HunkLine>) {
    forall i :: 0 <= i < |ls| && ls[i].Added? ==> !StartsWith(ls[i].text, "++")
  }

  ghost predicate PlainHunks(hs: seq<Hunk>) { forall i :: 0 <= i < |hs| ==> PlainAdds(hs[i].lines) }

  ghost predicate PlainFile(d: FileDiff) { PlainHunks(d.hunks) }

  ghost predicate PlainDiff(ds: seq<FileDiff>) { forall i :: 0 <= i < |ds| ==> PlainFile(ds[i]) }

  // ----- What the parser should return -----

  datatype Placed = Placed(file: string, line: int, content: string)

  function Shown(l: HunkLine): nat { if l.Context? || l.Added? then 1 else 0 }

  /** How many lines of the new file the hunk shows. */
  function ShownCount(ls: seq<HunkLine>): nat {
    if ls == [] then 0 else ShownCount(ls[..|ls| - 1]) + Shown(ls[|ls| - 1])
  }

  /** The added lines of a hunk, each at the line it has in the new file. */
  function HunkAdds(file: string, start: int, ls: seq<HunkLine>): seq<Placed> {
    if ls == [] then []
    else
      var n := |ls| - 1;
      HunkAdds(file, start, ls[..n]) +
          (if ls[n].Added? then [Placed(file, start + ShownCount(ls[..n]), ls[n].text)] else [])
  }

  function HunksAdds(file: string, hs: seq<Hunk>): seq<Placed> {
    if hs == [] then []
    else
      var last := hs[|hs| - 1];
      HunksAdds(file, hs[..|hs| - 1]) + HunkAdds(file, last.newRange.start, last.lines)
  }

  function FileAdds(d: FileDiff): seq<Placed> { if NameOf(d) == "" then [] else HunksAdds(NameOf(d), d.hunks) }

  function DiffAdds(ds: seq<FileDiff>): seq<Placed> {
    if ds == [] then [] else DiffAdds(ds[..|ds| - 1]) + FileAdds(ds[|ds| - 1])
  }

  /** The path of the file, however the diff spells it. */
  function TruePath(d: FileDiff): string {
    match d.target
    case Absent => ""
    case DevNull => "/dev/null"
    case Plain(path) => path
    case Quoted(path, _) => path
  }

  /** Every added line of the diff, under the real path of its file. */
  function TrueAdds(ds: seq<FileDiff>): seq<Placed> {
    if ds == [] then [] else TrueAdds(ds[..|ds| - 1]) + HunksAdds(TruePath(ds[|ds| - 1]), ds[|ds| - 1].hunks)
  }

  function Place(a: AddedLine): Placed { Placed(a.file, a.line, a.content) }

  function PlaceAll(added: seq<AddedLine>): (r: seq<Placed>)
    ensures |r| == |added|
    ensures forall i :: 0 <= i < |r| ==> r[i] == Place(added[i])
  {
    seq(|added|, i requires 0 <= i < |added| => Place(added[i]))
  }

  lemma PlaceAppend(added: seq<AddedLine>, a: AddedLine)
    ensures PlaceAll(added + [a]) == PlaceAll(added) + [Place(a)]
  {
  }

  // ----- The parser on rendered diffs -----

  lemma FoldEmpty(p: Parser)
    ensures Fold(p, []) == p
  {
  }

  lemma {:induction false} FoldConcat(p: Parser, a: seq<string>, b: seq<string>)
    ensures Fold(p, a + b) == Fold(Fold(p, a), b)
  {
    if b == [] {
      assert a + b == a;
    } else {
      var n := |b| - 1;
      assert (a + b)[..|a + b| - 1] == a + b[..n];
      FoldConcat(p, a, b[..n]);
    }
  }

  lemma RangeRead(r: Range, rest: string)
    requires rest != "" && rest[0] == ' '
    ensures var s := RenderRange(r) + rest;
            var k := DigitSpan(s);
            && k > 0 && Value(s[..k]) == r.start && SkipCount(s[k..]) == rest
  {
    var d := Decimal(r.start);
    ValueOfDecimal(r.start);
    var tail := (match r.count case Some(c) => "," + Decimal(c) case None => "") + rest;
    var s := RenderRange(r) + rest;
    assert s == d + tail;
    SpanOfDigits(d, tail);
    assert s[..|d|] == d && s[|d|..] == tail;
    if r.count.Some? {
      var c := Decimal(r.count.value);
      assert tail[1..] == c + rest;
      SpanOfDigits(c, rest);
      assert tail[1 + |c|..] == rest;
    } else {
      assert tail == rest;
    }
  }

  lemma HeaderRead(h: Hunk)
    ensures StartsWith(HunkHeader(h), "@@") && !StartsWith(HunkHeader(h), "+++ ")
    ensures HunkStart(HunkHeader(h)) == Some(h.newRange.start)
  {
    var end := " @@" + h.section;
    var mid := " +" + (RenderRange(h.newRange) + end);
    var raw := HunkHeader(h);
    assert raw[0] == '@' && raw[1] == '@' && raw[2] == ' ' && raw[3] == '-';
    assert raw[4..] == RenderRange(h.oldRange) + mid;
    RangeRead(h.oldRange, mid);
    assert mid[2..] == RenderRange(h.newRange) + end;
    RangeRead(h.newRange, end);
  }

  /** A hunk read as a structure: what is shown, where the next line goes, what was added. */
  datatype Walked = Walked(shown: map<int, string>, next: int, added: seq<AddedLine>)

  function WalkLine(file: string, w: Walked, l: HunkLine): Walked {
    match l
    case Context(t) => w.(shown := w.shown[w.next := t], next := w.next + 1)
    case Added(t) =>
      var previous := if w.next - 1 in w.shown then w.shown[w.next - 1] else "";
      Walked(w.shown[w.next := t], w.next + 1, w.added + [AddedLine(file, w.next, t, previous)])
    case _ => w
  }

  function Walk(file: string, w: Walked, ls: seq<HunkLine>): Walked {
    if ls == [] then w else WalkLine(file, Walk(file, w, ls[..|ls| - 1]), ls[|ls| - 1])
  }

  /** The parser state that a walk stands for. */
  function Holding(p: Parser, w: Walked): Parser {
    p.(newLine := w.next, recent := p.recent[p.file := w.shown], added := w.added)
  }

  lemma HeadDiffers(s: string, prefix: string)
    requires s != "" && prefix != "" && s[0] != prefix[0]
    ensures !StartsWith(s, prefix)
  {
  }

  /** How a rendered line looks to the parser: it starts with `+++` exactly when it adds a line starting with `++`. */
  lemma RenderedMarks(l: HunkLine)
    ensures var raw := RenderLine(l);
            && raw[1..] == l.text
            && !StartsWith(raw, "@@")
            && (StartsWith(raw, "+") <==> l.Added?)
            && (StartsWith(raw, " ") <==> l.Context?)
            && (StartsWith(raw, "+++") <==> l.Added? && StartsWith(l.text, "++"))
            && (StartsWith(raw, "+++ ") ==> StartsWith(raw, "+++"))
  {
    var raw := RenderLine(l);
    assert raw[1..] == l.text;
    HeadDiffers(raw, "@@");
    if l.Added? {
      HeadDiffers(raw, " ");
      if StartsWith(l.text, "++") {
        assert l.text[0] == '+' && l.text[1] == '+';
        assert raw[1] == '+' && raw[2] == '+';
      }
      if StartsWith(raw, "+++") { assert raw[1] == '+' && raw[2] == '+'; assert l.text[0] == '+' && l.text[1] == '+'; }
      if StartsWith(raw, "+++ ") { assert raw[0] == '+' && raw[1] == '+' && raw[2] == '+'; }
    } else {
      HeadDiffers(raw, "+");
      HeadDiffers(raw, "+++");
      HeadDiffers(raw, "+++ ");
      if !l.Context? { HeadDiffers(raw, " "); }
    }
  }

  lemma LineIsWalked(p: Parser, w: Walked, l: HunkLine)
    requires p.file != ""
    requires l.Added? ==> !StartsWith(l.text, "++")
    ensures StepLine(Holding(p, w), RenderLine(l)) == Holding(p, WalkLine(p.file, w, l))
  {
    var raw := RenderLine(l);
    RenderedMarks(l);
    var y := w.shown[w.next := l.text];
    assert Holding(p, w).recent[p.file := y] == p.recent[p.file := y];
  }

  lemma {:induction false} LinesAreWalked(p: Parser, w: Walked, ls: seq<HunkLine>)
    requires p.file != "" && PlainAdds(ls)
    ensures Fold(Holding(p, w), RenderLines(ls)) == Holding(p, Walk(p.file, w, ls))
  {
    if ls != [] {
      var n := |ls| - 1;
      LinesAreWalked(p, w, ls[..n]);
      assert RenderLines(ls)[..n] == RenderLines(ls[..n]);
      LineIsWalked(p, Walk(p.file, w, ls[..n]), ls[n]);
    }
  }

  lemma {:induction false} WalkPlaces(file: string, w: Walked, ls: seq<HunkLine>)
    ensures var w' := Walk(file, w, ls);
            w'.next == w.next + ShownCount(ls) && PlaceAll(w'.added) == PlaceAll(w.added) + HunkAdds(file, w.next, ls)
  {
    if ls != [] {
      var n := |ls| - 1;
      WalkPlaces(file, w, ls[..n]);
      var mid := Walk(file, w, ls[..n]);
      if ls[n].Added? {
        PlaceAppend(mid.added, Walk(file, w, ls).added[|mid.added|]);
      }
    }
  }

  /** The part of the parser state that carries from hunk to hunk of a visible file. */
  ghost predicate Ready(p: Parser) { p.file != "" && p.file in p.recent }

  lemma HunkIsWalked(p: Parser, h: Hunk)
    requires Ready(p) && PlainAdds(h.lines)
    ensures Fold(p, RenderHunk(h)) ==
            Holding(p, Walk(p.file, Walked(p.recent[p.file], h.newRange.start, p.added), h.lines))
  {
    HeaderRead(h);
    var w := Walked(p.recent[p.file], h.newRange.start, p.added);
    var header := [HunkHeader(h)];
    assert header[..0] == [];
    assert Fold(p, header) == StepLine(p, HunkHeader(h)) == p.(newLine := h.newRange.start);
    assert p.recent[p.file := p.recent[p.file]] == p.recent;
    assert p.(newLine := h.newRange.start) == Holding(p, w);
    FoldConcat(p, header, RenderLines(h.lines));
    LinesAreWalked(p, w, h.lines);
  }

  lemma HunkParsed(p: Parser, h: Hunk)
    requires Ready(p) && PlainAdds(h.lines)
    ensures var p' := Fold(p, RenderHunk(h));
            && Ready(p') && p'.file == p.file
            && PlaceAll(p'.added) == PlaceAll(p.added) + HunkAdds(p.file, h.newRange.start, h.lines)
  {
    HunkIsWalked(p, h);
    WalkPlaces(p.file, Walked(p.recent[p.file], h.newRange.start, p.added), h.lines);
  }

  lemma AddsAssociate(a: seq<Placed>, b: seq<Placed>, c: seq<Placed>)
    ensures (a + b) + c == a + (b + c)
  {
  }

  lemma {:induction false} HunksParsed(p: Parser, hs: seq<Hunk>)
    requires Ready(p) && forall i :: 0 <= i < |hs| ==> PlainAdds(hs[i].lines)
    ensures var p' := Fold(p, RenderHunks(hs));
            && Ready(p') && p'.file == p.file
            && PlaceAll(p'.added) == PlaceAll(p.added) + HunksAdds(p.file, hs)
  {
    hide StepLine, Fold, RenderHunk, HunkAdds, PlainAdds;
    if hs == [] {
      FoldEmpty(p);
    } else {
      var n := |hs| - 1;
      HunksParsed(p, hs[..n]);
      FoldConcat(p, RenderHunks(hs[..n]), RenderHunk(hs[n]));
      HunkParsed(Fold(p, RenderHunks(hs[..n])), hs[n]);
      AddsAssociate(PlaceAll(p.added), HunksAdds(p.file, hs[..n]), HunkAdds(p.file, hs[n].newRange.start, hs[n].lines));
    }
  }

  /** While no file is current, nothing is collected: the lines of invisible files are passed over. */
  lemma {:induction false} InvisibleLines(p: Parser, ls: seq<HunkLine>)
    requires p.file == "" && PlainAdds(ls)
    ensures Fold(p, RenderLines(ls)) == p
  {
    if ls != [] {
      var n := |ls| - 1;
      InvisibleLines(p, ls[..n]);
      assert RenderLines(ls)[..n] == RenderLines(ls[..n]);
      RenderedMarks(ls[n]);
    }
  }

  lemma {:induction false} InvisibleHunks(p: Parser, hs: seq<Hunk>)
    requires p.file == "" && forall i :: 0 <= i < |hs| ==> PlainAdds(hs[i].lines)
    ensures Fold(p, RenderHunks(hs)).file == "" && Fold(p, RenderHunks(hs)).added == p.added
    ensures Fold(p, RenderHunks(hs)).recent == p.recent
  {
    if hs != [] {
      var n := |hs| - 1;
      InvisibleHunks(p, hs[..n]);
      var mid := Fold(p, RenderHunks(hs[..n]));
      FoldConcat(p, RenderHunks(hs[..n]), RenderHunk(hs[n]));
      HeaderRead(hs[n]);
      var header := [HunkHeader(hs[n])];
      assert header[..0] == [];
      assert Fold(mid, header) == mid.(newLine := hs[n].newRange.start);
      FoldConcat(mid, header, RenderLines(hs[n].lines));
      InvisibleLines(Fold(mid, header), hs[n].lines);
    }
  }

  lemma {:induction false} QuietLines(p: Parser, lines: seq<string>)
    requires forall i :: 0 <= i < |lines| ==> QuietLine(lines[i])
    ensures Fold(p, lines) == p
  {
    if lines != [] {
      var n := |lines| - 1;
      QuietLines(p, lines[..n]);
      assert QuietLine(lines[n]);
    }
  }

  /** Between files the parser may still hold the previous file's name. */
  ghost predicate Idle(p: Parser) { p.file != "" ==> p.file in p.recent }

  lemma TargetParsed(p: Parser, d: FileDiff)
    requires !d.target.Absent? && Idle(p)
    ensures var p' := Fold(p, [TargetLine(d.target)]);
            && p'.file == NameOf(d) && p'.added == p.added && Idle(p')
            && p'.recent == (if NameOf(d) != "" && NameOf(d) !in p.recent then p.recent[NameOf(d) := map[]]
                 else p.recent)
  {
    var lines := [TargetLine(d.target)];
    assert lines[..0] == [];
    assert StartsWith(TargetLine(d.target), "+++ ");
  }

  lemma FileParsed(p: Parser, d: FileDiff)
    requires Idle(p) && WellFormedFile(d) && PlainFile(d)
    ensures var p' := Fold(p, RenderFile(d));
            Idle(p') && PlaceAll(p'.added) == PlaceAll(p.added) + FileAdds(d)
  {
    var head := if d.target.Absent? then [] else [TargetLine(d.target)];
    FoldConcat(p, d.preamble, head + RenderHunks(d.hunks));
    QuietLines(p, d.preamble);
    FoldConcat(p, head, RenderHunks(d.hunks));
    if !d.target.Absent? {
      TargetParsed(p, d);
      var q := Fold(p, head);
      if q.file != "" { HunksParsed(q, d.hunks); } else { InvisibleHunks(q, d.hunks); }
    }
  }

  /**
   * On a diff whose added lines do not start with `++`, the parser returns exactly the added lines
   * of the files it can name, in order and in place.
   */
  lemma {:induction false} DiffParsed(ds: seq<FileDiff>)
    requires forall i :: 0 <= i < |ds| ==> WellFormedFile(ds[i])
    requires PlainDiff(ds)
    ensures Idle(Fold(START, RenderDiff(ds)))
    ensures PlaceAll(Fold(START, RenderDiff(ds)).added) == DiffAdds(ds)
  {
    hide StepLine, RenderFile, FileAdds, WellFormedFile, PlainFile;
    if ds != [] {
      var n := |ds| - 1;
      DiffParsed(ds[..n]);
      FoldConcat(START, RenderDiff(ds[..n]), RenderFile(ds[n]));
      FileParsed(Fold(START, RenderDiff(ds[..n])), ds[n]);
    }
  }

  // ----- And conversely -----

  /** Lines the parser may collect. */
  function Collectable(lines: seq<string>): nat {
    if lines == [] then 0
    else
      var last := lines[|lines| - 1];
      Collectable(lines[..|lines| - 1]) + (if StartsWith(last, "+") && !StartsWith(last, "+++") then 1 else 0)
  }

  lemma {:induction false} FoldCollectsAtMost(p: Parser, lines: seq<string>)
    ensures |Fold(p, lines).added| <= |p.added| + Collectable(lines)
  {
    if lines != [] { FoldCollectsAtMost(p, lines[..|lines| - 1]); }
  }

  lemma {:induction false} CollectableConcat(a: seq<string>, b: seq<string>)
    ensures Collectable(a + b) == Collectable(a) + Collectable(b)
  {
    if b == [] {
      assert a + b == a;
    } else {
      assert (a + b)[..|a + b| - 1] == a + b[..|b| - 1];
      CollectableConcat(a, b[..|b| - 1]);
    }
  }

  lemma {:induction false} CollectableLines(file: string, start: int, ls: seq<HunkLine>)
    ensures Collectable(RenderLines(ls)) <= |HunkAdds(file, start, ls)|
    ensures !PlainAdds(ls) ==> Collectable(RenderLines(ls)) < |HunkAdds(file, start, ls)|
  {
    if ls != [] {
      var n := |ls| - 1;
      CollectableLines(file, start, ls[..n]);
      assert RenderLines(ls)[..n] == RenderLines(ls[..n]);
      RenderedMarks(ls[n]);
      assert !PlainAdds(ls) ==> !PlainAdds(ls[..n]) || (ls[n].Added? && StartsWith(ls[n].text, "++"));
    }
  }

  lemma CollectableHunk(h: Hunk)
    ensures Collectable(RenderHunk(h)) == Collectable(RenderLines(h.lines))
  {
    var header := [HunkHeader(h)];
    assert header[..0] == [];
    assert HunkHeader(h)[0] == '@';
    HeadDiffers(HunkHeader(h), "+");
    CollectableConcat(header, RenderLines(h.lines));
  }

  lemma {:induction false} CollectableHunks(file: string, hs: seq<Hunk>)
    ensures Collectable(RenderHunks(hs)) <= |HunksAdds(file, hs)|
    ensures !PlainHunks(hs) ==> Collectable(RenderHunks(hs)) < |HunksAdds(file, hs)|
  {
    if hs != [] {
      var n := |hs| - 1;
      CollectableHunks(file, hs[..n]);
      CollectableConcat(RenderHunks(hs[..n]), RenderHunk(hs[n]));
      CollectableHunk(hs[n]);
      CollectableLines(file, hs[n].newRange.start, hs[n].lines);
      assert !PlainHunks(hs) ==> !PlainHunks(hs[..n]) || !PlainAdds(hs[n].lines);
    }
  }

  lemma {:induction false} CollectableQuiet(lines: seq<string>)
    requires forall i :: 0 <= i < |lines| ==> QuietLine(lines[i])
    ensures Collectable(lines) == 0
  {
    if lines != [] {
      CollectableQuiet(lines[..|lines| - 1]);
      assert QuietLine(lines[|lines| - 1]);
    }
  }

  ghost predicate HasTerminator(s: string) { exists i :: 0 <= i < |s| && LineTerminator(s[i]) }

  /** The path is written as it is, on one line, and has no space. */
  ghost predicate Readable(t: Target) { t.Plain? && ' ' !in t.path && !HasTerminator(t.path) }

  /** A file that is readable, or has no added lines to misplace, as for a deleted file. */
  ghost predicate Legible(d: FileDiff) { Readable(d.target) || HunksAdds(TruePath(d), d.hunks) == [] }

  ghost predicate LegibleDiff(ds: seq<FileDiff>) { forall i :: 0 <= i < |ds| ==> Legible(ds[i]) }

  lemma CollectableFile(d: FileDiff)
    requires WellFormedFile(d)
    ensures Collectable(RenderFile(d)) <= |HunksAdds(TruePath(d), d.hunks)|
    ensures !PlainFile(d) ==> Collectable(RenderFile(d)) < |HunksAdds(TruePath(d), d.hunks)|
  {
    var head := if d.target.Absent? then [] else [TargetLine(d.target)];
    CollectableConcat(d.preamble, head + RenderHunks(d.hunks));
    CollectableQuiet(d.preamble);
    CollectableConcat(head, RenderHunks(d.hunks));
    assert !d.target.Absent? ==> head[..0] == [] && StartsWith(TargetLine(d.target), "+++");
    CollectableHunks(TruePath(d), d.hunks);
  }

  lemma {:induction false} CollectableDiff(ds: seq<FileDiff>)
    requires forall i :: 0 <= i < |ds| ==> WellFormedFile(ds[i])
    ensures Collectable(RenderDiff(ds)) <= |TrueAdds(ds)|
    ensures !PlainDiff(ds) ==> Collectable(RenderDiff(ds)) < |TrueAdds(ds)|
  {
    hide RenderFile, HunksAdds, TruePath, WellFormedFile, PlainFile;
    if ds != [] {
      var n := |ds| - 1;
      CollectableDiff(ds[..n]);
      CollectableConcat(RenderDiff(ds[..n]), RenderFile(ds[n]));
      CollectableFile(ds[n]);
      assert !PlainDiff(ds) ==> !PlainDiff(ds[..n]) || !PlainFile(ds[n]);
    }
  }

  /** A spaced path is reported with a tab at its end; a path is reported as it is exactly when it is readable. */
  lemma NameRead(d: FileDiff)
    requires WellFormedFile(d)
    ensures Readable(d.target) <==> NameOf(d) == TruePath(d) && !d.target.Absent?
    ensures d.target.Plain? && ' ' in d.target.path && !HasTerminator(d.target.path) ==>
            NameOf(d) == d.target.path + "\t"
  {
    match d.target
    case Plain(path) =>
      var line := TargetLine(d.target);
      var tab := if ' ' in path then "\t" else "";
      assert line == "+++ b/" + (path + tab);
      assert line[6..] == path + tab;
      if i :| 0 <= i < |path| && LineTerminator(path[i]) { assert line[6 + i] == path[i]; }
    case Quoted(_, text) => assert TargetLine(d.target)[4] == '"';
    case DevNull => assert TargetLine(d.target)[4] == '/';
    case Absent =>
  }

  lemma {:induction false} HunkAddsNamed(a: string, b: string, start: int, ls: seq<HunkLine>)
    ensures |HunkAdds(a, start, ls)| == |HunkAdds(b, start, ls)|
    ensures forall i :: 0 <= i < |HunkAdds(a, start, ls)| ==> HunkAdds(a, start, ls)[i].file == a
  {
    if ls != [] { HunkAddsNamed(a, b, start, ls[..|ls| - 1]); }
  }

  lemma {:induction false} HunksAddsNamed(a: string, b: string, hs: seq<Hunk>)
    ensures |HunksAdds(a, hs)| == |HunksAdds(b, hs)|
    ensures forall i :: 0 <= i < |HunksAdds(a, hs)| ==> HunksAdds(a, hs)[i].file == a
  {
    hide HunkAdds;
    if hs != [] {
      var n := |hs| - 1;
      HunksAddsNamed(a, b, hs[..n]);
      HunkAddsNamed(a, b, hs[n].newRange.start, hs[n].lines);
    }
  }

  lemma NamedFileAdds(d: FileDiff)
    requires WellFormedFile(d)
    ensures |FileAdds(d)| <= |HunksAdds(TruePath(d), d.hunks)|
    ensures FileAdds(d) == HunksAdds(TruePath(d), d.hunks) <==> Legible(d)
  {
    NameRead(d);
    HunksAddsNamed(NameOf(d), TruePath(d), d.hunks);
    HunksAddsNamed(TruePath(d), NameOf(d), d.hunks);
    assert d.target.Absent? ==> HunksAdds(TruePath(d), d.hunks) == [];
    hide HunksAdds, NameOf, TruePath, Readable;
    var named, all := HunksAdds(NameOf(d), d.hunks), HunksAdds(TruePath(d), d.hunks);
    if named == all && all != [] { assert named[0].file == all[0].file; }
  }

  lemma LegibleNext(ds: seq<FileDiff>)
    requires ds != []
    ensures LegibleDiff(ds) <==> LegibleDiff(ds[..|ds| - 1]) && Legible(ds[|ds| - 1])
  {
    hide Legible;
    assert forall i :: 0 <= i < |ds| - 1 ==> ds[..|ds| - 1][i] == ds[i];
  }

  /** What the parser names gives all added lines under their real paths exactly when all files are legible. */
  lemma {:induction false} NamedAdds(ds: seq<FileDiff>)
    requires forall i :: 0 <= i < |ds| ==> WellFormedFile(ds[i])
    ensures |DiffAdds(ds)| <= |TrueAdds(ds)|
    ensures DiffAdds(ds) == TrueAdds(ds) <==> LegibleDiff(ds)
  {
    if ds != [] {
      hide HunksAdds, FileAdds, TruePath, LegibleDiff, Legible, WellFormedFile;
      var n := |ds| - 1;
      NamedAdds(ds[..n]);
      NamedFileAdds(ds[n]);
      LegibleNext(ds);
      EqualParts(DiffAdds(ds[..n]), FileAdds(ds[n]), TrueAdds(ds[..n]), HunksAdds(TruePath(ds[n]), ds[n].hunks));
    }
  }

  lemma EqualParts(a: seq<Placed>, b: seq<Placed>, c: seq<Placed>, d: seq<Placed>)
    requires |a| <= |c| && |b| <= |d|
    ensures a + b == c + d <==> a == c && b == d
  {
    if a + b == c + d {
      assert |a + b| == |c + d|;
      assert a == (a + b)[..|a|] && b == (a + b)[|a|..];
      assert c == (c + d)[..|c|] && d == (c + d)[|c|..];
    }
  }

  /**
   * The parser returns exactly the added lines of a well-formed diff if and only if none of
   * them starts with `++` (which the parser takes for a file header or drops) and none is in
   * a file whose path git quotes or ends with a tab.
   */
  lemma ParserExact(ds: seq<FileDiff>)
    requires forall i :: 0 <= i < |ds| ==> WellFormedFile(ds[i])
    ensures PlaceAll(Fold(START, RenderDiff(ds)).added) == TrueAdds(ds) <==> PlainDiff(ds) && LegibleDiff(ds)
  {
    if PlainDiff(ds) {
      DiffParsed(ds);
      NamedAdds(ds);
    } else {
      FoldCollectsAtMost(START, RenderDiff(ds));
      CollectableDiff(ds);
    }
  }

  /** The same on the text of the diff, with its final newline. */
  lemma ParserExactOnText(ds: seq<FileDiff>)
    requires forall i :: 0 <= i < |ds| ==> WellFormedFile(ds[i])
    requires forall i :: 0 <= i < |RenderDiff(ds)| ==> Lacks(RenderDiff(ds)[i], '\n')
    ensures var text := Join(RenderDiff(ds) + [""], '\n');
            PlaceAll(Fold(START, Split(text, '\n')).added) == TrueAdds(ds) <==> PlainDiff(ds) && LegibleDiff(ds)
  {
    var lines := RenderDiff(ds);
    SplitOfJoin(lines + [""], '\n');
    FoldConcat(START, lines, [""]);
    assert [""][..0] == [];
    assert Fold(Fold(START, lines), [""]) == Fold(START, lines);
    ParserExact(ds);
  }

  // ----- The preceding line -----

  /** The new contents of the files, under the names the parser reports them by. */
  type Files = map<string, seq<string>>

  /** Line `n` of the new file, counting from 1. */
  ghost predicate IsLine(files: Files, file: string, n: int, text: string) {
    file in files && 1 <= n <= |files[file]| && files[file][n - 1] == text
  }

  /** The hunk's context and added lines are lines of the new file, from `start` on. */
  ghost predicate LinesFit(files: Files, file: string, start: int, ls: seq<HunkLine>) {
    forall i :: 0 <= i < |ls| && Shown(ls[i]) == 1 ==> IsLine(files, file, start + ShownCount(ls[..i]), ls[i].text)
  }

  /** As with one line of context: unless it starts at the top, a hunk shows something before its first added line. */
  ghost predicate Anchored(start: int, ls: seq<HunkLine>) {
    forall i :: 0 <= i < |ls| && ls[i].Added? && start + ShownCount(ls[..i]) != 1 ==> ShownCount(ls[..i]) > 0
  }

  ghost predicate FitsFile(files: Files, d: FileDiff) {
    NameOf(d) != "" ==> forall i :: 0 <= i < |d.hunks| ==>
      LinesFit(files, NameOf(d), d.hunks[i].newRange.start, d.hunks[i].lines) &&
          Anchored(d.hunks[i].newRange.start, d.hunks[i].lines)
  }

  ghost predicate ShownIsTrue(files: Files, file: string, shown: map<int, string>) {
    forall n :: n in shown ==> IsLine(files, file, n, shown[n])
  }

  ghost predicate RecentIsTrue(files: Files, recent: Recent) {
    forall f :: f in recent ==> ShownIsTrue(files, f, recent[f])
  }

  /** `previousContent` is the line before it in the new file, empty at the top. */
  ghost predicate TrueNeighbours(files: Files, a: AddedLine) {
    && IsLine(files, a.file, a.line, a.content)
    && (if a.line == 1 then a.previousContent == "" else IsLine(files, a.file, a.line - 1, a.previousContent))
  }

  ghost predicate AllTrue(files: Files, added: seq<AddedLine>) {
    forall i :: 0 <= i < |added| ==> TrueNeighbours(files, added[i])
  }

  lemma {:induction false} WalkNext(file: string, w: Walked, ls: seq<HunkLine>)
    ensures Walk(file, w, ls).next == w.next + ShownCount(ls)
  {
    if ls != [] { WalkNext(file, w, ls[..|ls| - 1]); }
  }

  lemma WalkLineIsTrue(files: Files, file: string, w: Walked, l: HunkLine)
    requires ShownIsTrue(files, file, w.shown) && AllTrue(files, w.added)
    requires Shown(l) == 1 ==> IsLine(files, file, w.next, l.text)
    requires l.Added? && w.next != 1 ==> w.next - 1 in w.shown
    ensures var w' := WalkLine(file, w, l);
            && ShownIsTrue(files, file, w'.shown) && AllTrue(files, w'.added)
            && (w'.next - 1 in w'.shown <== Shown(l) == 1 || w.next - 1 in w.shown)
  {
  }

  /** A hunk that fits fits without its last line, and says where that line goes. */
  lemma FitsPrefix(files: Files, file: string, start: int, ls: seq<HunkLine>)
    requires ls != [] && LinesFit(files, file, start, ls) && Anchored(start, ls)
    ensures var n := |ls| - 1;
            && LinesFit(files, file, start, ls[..n]) && Anchored(start, ls[..n])
            && (Shown(ls[n]) == 1 ==> IsLine(files, file, start + ShownCount(ls[..n]), ls[n].text))
            && (ls[n].Added? && start + ShownCount(ls[..n]) != 1 ==> ShownCount(ls[..n]) > 0)
  {
    hide IsLine, ShownCount;
    var n := |ls| - 1;
    assert forall i :: 0 <= i < n ==> ls[..n][..i] == ls[..i] && ls[..n][i] == ls[i];
  }

  lemma {:induction false} WalkIsTrue(files: Files, file: string, w: Walked, ls: seq<HunkLine>)
    requires ShownIsTrue(files, file, w.shown) && AllTrue(files, w.added)
    requires LinesFit(files, file, w.next, ls) && Anchored(w.next, ls)
    ensures var w' := Walk(file, w, ls);
            && ShownIsTrue(files, file, w'.shown) && AllTrue(files, w'.added)
            && (ShownCount(ls) > 0 ==> w'.next - 1 in w'.shown)
  {
    if ls != [] {
      hide IsLine, ShownIsTrue, AllTrue, WalkLine, LinesFit, Anchored;
      var n := |ls| - 1;
      FitsPrefix(files, file, w.next, ls);
      WalkIsTrue(files, file, w, ls[..n]);
      WalkNext(file, w, ls[..n]);
      WalkLineIsTrue(files, file, Walk(file, w, ls[..n]), ls[n]);
    }
  }

  lemma HunkIsTrue(files: Files, p: Parser, h: Hunk)
    requires Ready(p) && RecentIsTrue(files, p.recent) && AllTrue(files, p.added)
    requires PlainAdds(h.lines) && LinesFit(files, p.file, h.newRange.start, h.lines) &&
            Anchored(h.newRange.start, h.lines)
    ensures var p' := Fold(p, RenderHunk(h));
            Ready(p') && p'.file == p.file && RecentIsTrue(files, p'.recent) && AllTrue(files, p'.added)
  {
    hide Fold, RenderHunk, PlainAdds, LinesFit, Anchored, ShownIsTrue, AllTrue, Walk;
    HunkIsWalked(p, h);
    WalkIsTrue(files, p.file, Walked(p.recent[p.file], h.newRange.start, p.added), h.lines);
  }

  lemma {:induction false} HunksAreTrue(files: Files, p: Parser, hs: seq<Hunk>)
    requires Ready(p) && RecentIsTrue(files, p.recent) && AllTrue(files, p.added)
    requires forall i :: 0 <= i < |hs| ==>
               PlainAdds(hs[i].lines) && LinesFit(files, p.file, hs[i].newRange.start, hs[i].lines) &&
                   Anchored(hs[i].newRange.start, hs[i].lines)
    ensures var p' := Fold(p, RenderHunks(hs));
            Ready(p') && p'.file == p.file && RecentIsTrue(files, p'.recent) && AllTrue(files, p'.added)
  {
    hide Fold, RenderHunk, PlainAdds, LinesFit, Anchored, RecentIsTrue, AllTrue;
    if hs == [] {
      FoldEmpty(p);
    } else {
      var n := |hs| - 1;
      HunksAreTrue(files, p, hs[..n]);
      FoldConcat(p, RenderHunks(hs[..n]), RenderHunk(hs[n]));
      HunkIsTrue(files, Fold(p, RenderHunks(hs[..n])), hs[n]);
    }
  }

  lemma FileIsTrue(files: Files, p: Parser, d: FileDiff)
    requires Idle(p) && WellFormedFile(d) && PlainFile(d) && FitsFile(files, d)
    requires RecentIsTrue(files, p.recent) && AllTrue(files, p.added)
    ensures var p' := Fold(p, RenderFile(d)); Idle(p') && RecentIsTrue(files, p'.recent) && AllTrue(files, p'.added)
  {
    FileParsed(p, d);
    var head := if d.target.Absent? then [] else [TargetLine(d.target)];
    FoldConcat(p, d.preamble, head + RenderHunks(d.hunks));
    QuietLines(p, d.preamble);
    FoldConcat(p, head, RenderHunks(d.hunks));
    if !d.target.Absent? {
      TargetParsed(p, d);
      var q := Fold(p, head);
      if q.file != "" { HunksAreTrue(files, q, d.hunks); } else { InvisibleHunks(q, d.hunks); }
    }
  }

  lemma StartIsTrue(files: Files)
    ensures Idle(START) && RecentIsTrue(files, START.recent) && AllTrue(files, START.added)
  {
  }

  /** Against the new contents of the files, every returned line has its true content, number and predecessor. */
  lemma {:induction false} NeighboursTrue(files: Files, ds: seq<FileDiff>)
    requires forall i :: 0 <= i < |ds| ==> WellFormedFile(ds[i]) && PlainFile(ds[i]) && FitsFile(files, ds[i])
    ensures var p := Fold(START, RenderDiff(ds)); Idle(p) && RecentIsTrue(files, p.recent) && AllTrue(files, p.added)
  {
    hide Fold, RenderFile, WellFormedFile, PlainFile, FitsFile, RecentIsTrue, AllTrue, Idle;
    if ds == [] {
      FoldNone();
      StartIsTrue(files);
    } else {
      var n := |ds| - 1;
      NeighboursTrue(files, ds[..n]);
      FoldConcat(START, RenderDiff(ds[..n]), RenderFile(ds[n]));
      FileIsTrue(files, Fold(START, RenderDiff(ds[..n])), ds[n]);
    }
  }

  // ----- The consumer -----

  predicate OccursAt(s: string, part: string, i: nat) {
    i + |part| <= |s| && s[i..i + |part|] == part
  }

  predicate Includes(s: string, part: string) {
    exists i :: 0 <= i <= |s| && OccursAt(s, part, i)
  }

  predicate IsSuppressed(a: AddedLine) {
    Includes(a.content, "generic-examples:ignore-line") ||
        Includes(a.previousContent, "generic-examples:ignore-next-line")
  }

  lemma NothingInEmpty(part: string)
    requires part != ""
    ensures !Includes("", part)
  {
  }

  /**
   * So suppression depends on the new file alone: the marker on the line itself, or the other
   * marker on the line above.
   */
  lemma SuppressionIsOfTheNewFile(files: Files, ds: seq<FileDiff>, i: nat)
    requires forall k :: 0 <= k < |ds| ==> WellFormedFile(ds[k]) && PlainFile(ds[k]) && FitsFile(files, ds[k])
    requires i < |Fold(START, RenderDiff(ds)).added|
    ensures var a := Fold(START, RenderDiff(ds)).added[i];
            && a.file in files && 1 <= a.line <= |files[a.file]|
            && (IsSuppressed(a) <==>
                  Includes(files[a.file][a.line - 1], "generic-examples:ignore-line") ||
                  (a.line > 1 && Includes(files[a.file][a.line - 2], "generic-examples:ignore-next-line")))
  {
    hide Fold, RenderDiff, WellFormedFile, PlainFile, FitsFile, RecentIsTrue, Idle, Includes;
    NeighboursTrue(files, ds);
    NothingInEmpty("generic-examples:ignore-next-line");
    var a := Fold(START, RenderDiff(ds)).added[i];
    assert TrueNeighbours(files, a);
  }
}
