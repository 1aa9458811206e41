/** Request-path canonicalisation and prefix matching. */
module HttpPaths {
  import opened Text
  import Percent

  /** `pathname` contains two slashes in a row. */
  predicate HasDoubleSlash(s: string) {
    exists i :: 0 <= i < |s| - 1 && s[i] == '/' && s[i + 1] == '/'
  }

  /** Control characters, DEL, backslash and the URL delimiters, plus the percent sign. */
  predicate Forbidden(c: char) {
    c < ' ' || c == '\U{7f}' || c in "\\/?#%"
  }

  predicate CleanSegment(d: string) {
    d != "." && d != ".." && forall i :: 0 <= i < |d| ==> !Forbidden(d[i])
  }

  /** The accepted segments of a path, decoded; `None` when any of them is refused. */
  function DecodeSegments(segments: seq<string>): (r: Option<seq<string>>)
  {
    if segments == [] then Some([])
    else
      match Percent.Decode(segments[0])
      case None => None
      case Some(d) =>
        if !CleanSegment(d) then None
        else
          match DecodeSegments(segments[1..])
          case None => None
          case Some(rest) => Some([d] + rest)
  }

  function Canonical(pathname: string): Option<string> {
    if HasDoubleSlash(pathname) || '\\' in pathname then None
    else
      match DecodeSegments(Split(pathname, '/'))
      case None => None
      case Some(ds) => Some(Join(ds, '/'))
  }

  /** `canonicalizeAssistantRequestPath`: decode every segment, refuse on the first bad one. */
  method CanonicalizeAssistantRequestPath(pathname: string) returns (r: Option<string>)
    ensures r == Canonical(pathname)
  {
    if HasDoubleSlash(pathname) || '\\' in pathname { return None; }
    var segments := Split(pathname, '/');
    var canonicalSegments: seq<string> := [];
    assert segments[0..] == segments;
    assert forall rest: seq<string> :: canonicalSegments + rest == rest;
    for i := 0 to |segments|
      invariant DecodeSegments(segments) ==
                (match DecodeSegments(segments[i..])
                 case None => None
                 case Some(rest) => Some(canonicalSegments + rest))
    {
      assert segments[i..][1..] == segments[i + 1..];
      ghost var before := canonicalSegments;
      var decoded := Percent.Decode(segments[i]);
      if decoded.None? { return None; }
      if !CleanSegment(decoded.value) { return None; }
      canonicalSegments := canonicalSegments + [decoded.value];
      assert forall rest: seq<string> :: before + ([decoded.value] + rest) == canonicalSegments + rest;
    }
    assert segments[|segments|..] == [];
    assert canonicalSegments + [] == canonicalSegments;
    r := Some(Join(canonicalSegments, '/'));
  }

  // ----- Fixed point -----

  /** What a canonical path is, said without reference to the algorithm. */
  ghost predicate IsClean(q: string) {
    !HasDoubleSlash(q) && forall i :: 0 <= i < |Split(q, '/')| ==> CleanSegment(Split(q, '/')[i])
  }

  ghost predicate NoEmptyInterior(parts: seq<string>) {
    forall i :: 0 < i < |parts| - 1 ==> parts[i] != ""
  }

  /** Two slashes in a row are an empty interior segment, and conversely. */
  lemma {:induction false} DoubleSlashIsEmptyInterior(s: string)
    ensures HasDoubleSlash(s) <==> !NoEmptyInterior(Split(s, '/'))
  {
    if s == "" { return; }
    var rest := Split(s[1..], '/');
    var parts := Split(s, '/');
    DoubleSlashIsEmptyInterior(s[1..]);
    FirstSegmentEmpty(s[1..]);
    if HasDoubleSlash(s[1..]) {
      var i :| 0 <= i < |s[1..]| - 1 && s[1..][i] == '/' && s[1..][i + 1] == '/';
      assert s[i + 1] == '/' && s[i + 1 + 1] == '/';
    }
    if HasDoubleSlash(s) && !(|s| > 1 && s[0] == '/' && s[1] == '/') {
      var i :| 0 <= i < |s| - 1 && s[i] == '/' && s[i + 1] == '/';
      assert s[1..][i - 1] == '/' && s[1..][i - 1 + 1] == '/';
    }
    if s[0] == '/' {
      assert forall i :: 0 < i < |parts| ==> parts[i] == rest[i - 1];
      assert forall i :: 0 <= i < |rest| ==> rest[i] == parts[i + 1];
      if |s| > 1 && s[1] == '/' { assert parts[1] == ""; }
    } else {
      assert forall i :: 0 < i < |parts| ==> parts[i] == rest[i];
    }
  }

  lemma FirstSegmentEmpty(s: string)
    ensures Split(s, '/')[0] == "" <==> s == "" || s[0] == '/'
    ensures |Split(s, '/')| == 1 && s != "" ==> s[0] != '/'
  {
  }

  lemma {:induction false} DecodedSegments(segments: seq<string>)
    ensures DecodeSegments(segments).Some? ==>
              var ds := DecodeSegments(segments).value;
              && |ds| == |segments|
              && (forall i :: 0 <= i < |ds| ==> CleanSegment(ds[i]) && (ds[i] == "" <==> segments[i] == ""))
  {
    if segments != [] { DecodedSegments(segments[1..]); }
  }

  lemma {:induction false} CleanSegmentsStand(ds: seq<string>)
    requires forall i :: 0 <= i < |ds| ==> CleanSegment(ds[i])
    ensures DecodeSegments(ds) == Some(ds)
  {
    if ds != [] {
      Percent.DecodePlain(ds[0]);
      CleanSegmentsStand(ds[1..]);
      assert [ds[0]] + ds[1..] == ds;
    }
  }

  lemma {:induction false} JoinAvoids(ds: seq<string>, c: char)
    requires c != '/'
    requires forall i :: 0 <= i < |ds| ==> c !in ds[i]
    ensures c !in Join(ds, '/')
  {
    if |ds| > 1 { JoinAvoids(ds[1..], c); }
  }

  /** A path is its own canonical form exactly when it is clean. */
  lemma FixedPointsAreClean(q: string)
    ensures Canonical(q) == Some(q) <==> IsClean(q)
  {
    var parts := Split(q, '/');
    JoinOfSplit(q, '/');
    if IsClean(q) {
      CleanSegmentsStand(parts);
      JoinAvoids(parts, '\\');
    } else if Canonical(q) == Some(q) {
      DecodedSegments(parts);
      var ds := DecodeSegments(parts).value;
      SplitOfJoin(ds, '/');
    }
  }

  /**
   * Canonicalising is idempotent: an accepted output is accepted unchanged, has as many
   * segments as the input, and has no empty interior, dot or percent-bearing segment.
   */
  lemma CanonicalIsFixedPoint(p: string)
    requires Canonical(p).Some?
    ensures var q := Canonical(p).value;
            && Canonical(q) == Some(q)
            && IsClean(q)
            && NoEmptyInterior(Split(q, '/'))
            && |Split(q, '/')| == |Split(p, '/')|
  {
    var parts := Split(p, '/');
    var ds := DecodeSegments(parts).value;
    var q := Canonical(p).value;
    DecodedSegments(parts);
    SplitOfJoin(ds, '/');
    DoubleSlashIsEmptyInterior(p);
    DoubleSlashIsEmptyInterior(q);
    FixedPointsAreClean(q);
  }

  /** Percent-encoding the segments of a clean path is undone: encoded and plain requests classify alike. */
  lemma {:induction false} EncodedSegmentsDecode(ds: seq<string>)
    requires forall i :: 0 <= i < |ds| ==> CleanSegment(ds[i])
    ensures DecodeSegments(seq(|ds|, i requires 0 <= i < |ds| => Percent.Encode(ds[i]))) == Some(ds)
  {
    hide Percent.Encode, Percent.Decode, CleanSegment;
    var es := seq(|ds|, i requires 0 <= i < |ds| => Percent.Encode(ds[i]));
    if ds != [] {
      Percent.DecodeEncode(ds[0]);
      EncodedSegmentsDecode(ds[1..]);
      assert es[1..] == seq(|ds[1..]|, i requires 0 <= i < |ds[1..]| => Percent.Encode(ds[1..][i]));
      assert [ds[0]] + ds[1..] == ds;
    }
  }

  /** Not a dot segment, and free of control characters, DEL, backslash, slash, `?`, `#` and `%`. */
  ghost predicate PlainSegment(d: string) {
    && d != "." && d != ".."
    && forall i :: 0 <= i < |d| ==>
         && 0x20 <= d[i] as int && d[i] as int != 0x7f
         && d[i] != '\\' && d[i] != '/' && d[i] != '?' && d[i] != '#' && d[i] != '%'
  }

  lemma CleanIsPlain(d: string)
    ensures CleanSegment(d) <==> PlainSegment(d)
  {
    assert forall i :: 0 <= i < |d| && PlainSegment(d) ==> !Forbidden(d[i]);
    if CleanSegment(d) {
      forall i | 0 <= i < |d|
        ensures 0x20 <= d[i] as int && d[i] as int != 0x7f
        ensures d[i] != '\\' && d[i] != '/' && d[i] != '?' && d[i] != '#' && d[i] != '%'
      {
        assert !Forbidden(d[i]);
      }
    }
  }

  /** The decoded segments are these, and all of them are plain. */
  ghost predicate DecodesTo(segments: seq<string>, ds: seq<string>) {
    && |ds| == |segments|
    && forall i :: 0 <= i < |ds| ==> Percent.Decode(segments[i]) == Some(ds[i]) && PlainSegment(ds[i])
  }

  lemma {:induction false} SegmentsDecodeExactly(segments: seq<string>, ds: seq<string>)
    ensures DecodeSegments(segments) == Some(ds) <==> DecodesTo(segments, ds)
  {
    hide CleanSegment, PlainSegment, Percent.Decode;
    if segments != [] {
      var d := Percent.Decode(segments[0]);
      if d.Some? { CleanIsPlain(d.value); }
      if ds != [] {
        SegmentsDecodeExactly(segments[1..], ds[1..]);
        assert ds == [ds[0]] + ds[1..];
        assert forall i :: 0 < i < |ds| ==> ds[i] == ds[1..][i - 1];
        assert forall i :: 0 < i < |segments| ==> segments[i] == segments[1..][i - 1];
        assert DecodesTo(segments, ds) ==> DecodesTo(segments[1..], ds[1..]);
      }
    }
  }

  /** The segments decode to plain ones that join to this. */
  ghost predicate JoinsDecoded(segments: seq<string>, q: string) {
    exists ds :: DecodesTo(segments, ds) && q == Join(ds, '/')
  }

  ghost predicate NoSlashPair(p: string) { forall i :: 1 <= i < |p| && p[i] == '/' ==> p[i - 1] != '/' }

  lemma RefusedOutright(p: string)
    ensures HasDoubleSlash(p) || '\\' in p <==> !(NoSlashPair(p) && Lacks(p, '\\'))
  {
    if HasDoubleSlash(p) {
      var i :| 0 <= i < |p| - 1 && p[i] == '/' && p[i + 1] == '/';
      assert p[i + 1] == '/' && p[i + 1 - 1] == '/';
    }
    if !NoSlashPair(p) {
      var i :| 1 <= i < |p| && p[i] == '/' && p[i - 1] == '/';
      assert p[i - 1] == '/' && p[i - 1 + 1] == '/';
    }
  }

  /**
   * A path is accepted, with this result, exactly when it has no two slashes in a row and no
   * backslash, and every segment decodes to a plain one; the result joins the decoded segments.
   */
  lemma AcceptedExactly(p: string, q: string)
    ensures Canonical(p) == Some(q) <==>
            && NoSlashPair(p) && Lacks(p, '\\')
            && JoinsDecoded(Split(p, '/'), q)
  {
    RefusedOutright(p);
    hide DecodesTo, DecodeSegments, HasDoubleSlash, Join, Split, NoSlashPair;
    var parts := Split(p, '/');
    if DecodeSegments(parts).Some? {
      var ds := DecodeSegments(parts).value;
      SegmentsDecodeExactly(parts, ds);
      assert JoinsDecoded(parts, Join(ds, '/'));
    }
    if JoinsDecoded(parts, q) {
      var ds :| DecodesTo(parts, ds) && q == Join(ds, '/');
      SegmentsDecodeExactly(parts, ds);
      assert DecodeSegments(parts) == Some(ds);
    }
  }

  // ----- Prefix matching -----

  function StripTrailingSlashes(s: string): string {
    if s != "" && s[|s| - 1] == '/' then StripTrailingSlashes(s[..|s| - 1]) else s
  }

  /** `normalizeHttpPath`: `/` is kept, otherwise every trailing slash goes (so `//` becomes empty). */
  function NormalizeHttpPath(s: string): string {
    if s == "/" then s else StripTrailingSlashes(s)
  }

  /** Exactly the trailing slashes go, except that `/` itself is kept. */
  lemma {:induction false} NormalizedExactly(s: string)
    ensures NormalizeHttpPath("/") == "/"
    ensures var n := StripTrailingSlashes(s);
            && n <= s && (forall i :: |n| <= i < |s| ==> s[i] == '/')
            && (n == "" || n[|n| - 1] != '/')
            && (s != "/" ==> NormalizeHttpPath(s) == n)
  {
    if s != "" && s[|s| - 1] == '/' { NormalizedExactly(s[..|s| - 1]); }
  }

  predicate StartsWith(s: string, p: string) { p <= s }

  predicate PathIsOrStartsWith(pathname: string, expectedPrefix: string) {
    var path := NormalizeHttpPath(pathname);
    var prefix := NormalizeHttpPath(expectedPrefix);
    path == prefix || StartsWith(path, prefix + "/")
  }

  /** Prefix matching on text is prefix matching on segments, so sibling names never match. */
  lemma PrefixIsSegmentPrefix(pathname: string, expectedPrefix: string)
    ensures PathIsOrStartsWith(pathname, expectedPrefix) <==>
            Split(NormalizeHttpPath(expectedPrefix), '/') <= Split(NormalizeHttpPath(pathname), '/')
  {
    var path := NormalizeHttpPath(pathname);
    var prefix := NormalizeHttpPath(expectedPrefix);
    var a := Split(path, '/');
    var b := Split(prefix, '/');
    if StartsWith(path, prefix + "/") {
      var rest := path[|prefix| + 1..];
      assert path == prefix + ['/'] + rest;
      SplitConcat(prefix, '/', rest);
    }
    if b <= a {
      JoinOfSplit(path, '/');
      JoinOfSplit(prefix, '/');
      if |a| == |b| {
        assert a == b;
      } else {
        var tail := a[|b|..];
        assert a == b + tail;
        JoinConcat(b, tail, '/');
      }
    }
  }
}
