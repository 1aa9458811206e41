/**
 * The canonical JSON printer of the archive manifest, over finite JSON trees.
 *
 * Strings are sequences of UTF-16 code units, as in JavaScript, so lone surrogates are
 * covered. A number is represented by the text JavaScript prints for it. Objects keep
 * their members in insertion order. `undefined` and non-finite numbers, which all print as
 * `null`, are not JSON trees.
 */
module CanonicalJson {
  import opened Text

  type Unit = u: int | 0 <= u < 0x10000
  type Units = seq<Unit>

  datatype Entry<+T> = Entry(key: Units, value: T)

  datatype Json =
    | Null
    | Bool(b: bool)
    | Number(lexeme: Units)
    | String(s: Units)
    | Array(items: seq<Json>)
    | Object(members: seq<Entry<Json>>)

  const QUOTE: Unit := 34
  const BACKSLASH: Unit := 92
  const COMMA: Unit := 44
  const COLON: Unit := 58
  const LBRACKET: Unit := 91
  const RBRACKET: Unit := 93
  const LBRACE: Unit := 123
  const RBRACE: Unit := 125

  const NULL_TEXT: Units := [110, 117, 108, 108]
  const TRUE_TEXT: Units := [116, 114, 117, 101]
  const FALSE_TEXT: Units := [102, 97, 108, 115, 101]

  /** Characters of a printed number: digits, sign, point and exponent mark. */
  predicate NumberUnit(u: Unit) { 48 <= u <= 57 || u == 45 || u == 43 || u == 46 || u == 101 || u == 69 }

  /** A printed number starts with a digit or a minus sign. */
  predicate NumberLexeme(t: Units) {
    t != [] && (48 <= t[0] <= 57 || t[0] == 45) && forall i :: 0 <= i < |t| ==> NumberUnit(t[i])
  }

  ghost predicate DistinctKeys<T>(es: seq<Entry<T>>) {
    forall i, j :: 0 <= i < j < |es| ==> es[i].key != es[j].key
  }

  /** Trees JavaScript can hold: printed numbers, and no key twice in one object. */
  ghost predicate WellFormed(v: Json) {
    match v
    case Number(t) => NumberLexeme(t)
    case Array(items) => forall i :: 0 <= i < |items| ==> WellFormed(items[i])
    case Object(ms) => DistinctKeys(ms) && forall i :: 0 <= i < |ms| ==> WellFormed(ms[i].value)
    case _ => true
  }

  // ----- Key order -----

  /** JavaScript's default string order: lexicographic by code unit. */
  predicate Leq(a: Units, b: Units) {
    a == [] || (b != [] && (a[0] < b[0] || (a[0] == b[0] && Leq(a[1..], b[1..]))))
  }

  function Insert<T>(e: Entry<T>, es: seq<Entry<T>>): seq<Entry<T>> {
    if es == [] || Leq(e.key, es[0].key) then [e] + es else [es[0]] + Insert(e, es[1..])
  }

  /** `Object.keys(object).sort()`, carrying each key's value along. */
  function SortByKey<T>(es: seq<Entry<T>>): seq<Entry<T>> {
    if es == [] then [] else Insert(es[0], SortByKey(es[1..]))
  }

  // ----- Printing -----

  function HexUnit(n: int): Unit
    requires 0 <= n < 16
  {
    if n < 10 then 48 + n else 87 + n
  }

  predicate High(u: Unit) { 0xD800 <= u < 0xDC00 }
  predicate Low(u: Unit) { 0xDC00 <= u < 0xE000 }

  /** A surrogate that is not half of a pair. */
  predicate LoneSurrogate(s: Units, i: nat)
    requires i < |s|
  {
    || (High(s[i]) && !(i + 1 < |s| && Low(s[i + 1])))
    || (Low(s[i]) && !(i > 0 && High(s[i - 1])))
  }

  /** The second character of a two-character escape, or 0. */
  function ShortEscape(u: Unit): Unit {
    if u == QUOTE || u == BACKSLASH then u
    else if u == 8 then 98
    else if u == 12 then 102
    else if u == 10 then 110
    else if u == 13 then 114
    else if u == 9 then 116
    else 0
  }

  function EscapeUnit(s: Units, i: nat): Units
    requires i < |s|
  {
    var u := s[i];
    if ShortEscape(u) != 0 then [BACKSLASH, ShortEscape(u)]
    else if u < 32 || LoneSurrogate(s, i) then
      [BACKSLASH, 117, HexUnit(u / 4096), HexUnit(u / 256 % 16), HexUnit(u / 16 % 16), HexUnit(u % 16)]
    else [u]
  }

  function EscapeFrom(s: Units, i: nat): Units
    requires i <= |s|
    decreases |s| - i
  {
    if i == |s| then [] else EscapeUnit(s, i) + EscapeFrom(s, i + 1)
  }

  /** `JSON.stringify` of a string. */
  function Quote(s: Units): Units { [QUOTE] + EscapeFrom(s, 0) + [QUOTE] }

  function JoinTexts(ts: seq<Units>): Units {
    if ts == [] then [] else if |ts| == 1 then ts[0] else ts[0] + [COMMA] + JoinTexts(ts[1..])
  }

  function MemberTexts(es: seq<Entry<Units>>): seq<Units> {
    if es == [] then [] else [Quote(es[0].key) + [COLON] + es[0].value] + MemberTexts(es[1..])
  }

  /** `canonicalJson`. The values are printed first and the members then put in key order. */
  function Canonical(v: Json): Units {
    match v
    case Null => NULL_TEXT
    case Bool(b) => if b then TRUE_TEXT else FALSE_TEXT
    case Number(t) => t
    case String(s) => Quote(s)
    case Array(items) => [LBRACKET] + JoinTexts(CanonicalItems(items)) + [RBRACKET]
    case Object(ms) => [LBRACE] + JoinTexts(MemberTexts(SortByKey(CanonicalValues(ms)))) + [RBRACE]
  }

  function CanonicalItems(items: seq<Json>): (ts: seq<Units>)
    ensures |ts| == |items|
  {
    if items == [] then [] else [Canonical(items[0])] + CanonicalItems(items[1..])
  }

  function CanonicalValues(ms: seq<Entry<Json>>): (es: seq<Entry<Units>>)
    ensures |es| == |ms|
  {
    if ms == [] then [] else [Entry(ms[0].key, Canonical(ms[0].value))] + CanonicalValues(ms[1..])
  }

  // ----- Equality up to key order, and the normal form -----

  /** Equal up to the order of object members, at every depth. */
  ghost predicate Same(v: Json, w: Json) {
    match (v, w)
    case (Array(a), Array(b)) =>
      |a| == |b| && forall i :: 0 <= i < |a| ==> Same(a[i], b[i])
    case (Object(ms), Object(ns)) =>
      && (forall i :: 0 <= i < |ms| ==> HasMatch(ms[i], ns))
      && (forall j :: 0 <= j < |ns| ==> IsMatched(ms, ns[j]))
    case _ => v == w
  }

  /** Some member of `ns` has the key of `m` and the same value. */
  ghost predicate HasMatch(m: Entry<Json>, ns: seq<Entry<Json>>)
    decreases m
  {
    exists j :: 0 <= j < |ns| && ns[j].key == m.key && Same(m.value, ns[j].value)
  }

  /** Some member of `ms` has the key of `n` and the same value. */
  ghost predicate IsMatched(ms: seq<Entry<Json>>, n: Entry<Json>)
    decreases ms
  {
    exists i :: 0 <= i < |ms| && ms[i].key == n.key && Same(ms[i].value, n.value)
  }

  /** The same tree with every object's members in key order. */
  function SortKeys(v: Json): Json {
    match v
    case Array(items) => Array(SortItems(items))
    case Object(ms) => Object(SortByKey(SortValues(ms)))
    case _ => v
  }

  function SortItems(items: seq<Json>): (r: seq<Json>)
    ensures |r| == |items|
    ensures forall i :: 0 <= i < |r| ==> r[i] == SortKeys(items[i])
  {
    if items == [] then [] else [SortKeys(items[0])] + SortItems(items[1..])
  }

  function SortValues(ms: seq<Entry<Json>>): (r: seq<Entry<Json>>)
    ensures |r| == |ms|
    ensures forall i :: 0 <= i < |r| ==> r[i] == Entry(ms[i].key, SortKeys(ms[i].value))
  {
    if ms == [] then [] else [Entry(ms[0].key, SortKeys(ms[0].value))] + SortValues(ms[1..])
  }

  // ----- Reading canonical text back -----

  function HexOf(u: Unit): (n: int)
    ensures -1 <= n < 16
  {
    if 48 <= u <= 57 then u - 48 else if 97 <= u <= 102 then u - 87 else -1
  }

  function Unescape(u: Unit): int {
    if u == QUOTE || u == BACKSLASH then u
    else if u == 98 then 8
    else if u == 102 then 12
    else if u == 110 then 10
    else if u == 114 then 13
    else if u == 116 then 9
    else -1
  }

  /** The code unit at the head of string text, and how many units spell it. */
  function ReadUnit(t: Units): (r: Option<(Unit, nat)>)
    requires t != []
    ensures r.Some? ==> 1 <= r.value.1 <= |t|
  {
    if t[0] != BACKSLASH then (if t[0] < 32 then None else Some((t[0], 1)))
    else if |t| < 2 then None
    else if t[1] != 117 then (if Unescape(t[1]) < 0 then None else Some((Unescape(t[1]), 2)))
    else if |t| < 6 || HexOf(t[2]) < 0 || HexOf(t[3]) < 0 || HexOf(t[4]) < 0 || HexOf(t[5]) < 0 then None
    else Some((HexOf(t[2]) * 4096 + HexOf(t[3]) * 256 + HexOf(t[4]) * 16 + HexOf(t[5]), 6))
  }

  /** String contents up to and including the closing quote. */
  function ReadUnits(t: Units): (r: Option<(Units, Units)>)
    ensures r.Some? ==> |r.value.1| < |t|
    decreases |t|
  {
    if t == [] then None
    else if t[0] == QUOTE then Some(([], t[1..]))
    else
      match ReadUnit(t)
      case None => None
      case Some((u, n)) =>
        match ReadUnits(t[n..])
        case None => None
        case Some((s, rest)) => Some(([u] + s, rest))
  }

  /** The longest prefix of number characters. */
  function NumberSpan(t: Units): (n: nat)
    ensures n <= |t|
  {
    if t == [] || !NumberUnit(t[0]) then 0 else 1 + NumberSpan(t[1..])
  }

  function ReadValue(t: Units): (r: Option<(Json, Units)>)
    ensures r.Some? ==> |r.value.1| < |t|
    decreases |t|, 0
  {
    if t == [] then None
    else if t[0] == QUOTE then
      match ReadUnits(t[1..])
      case None => None
      case Some((s, rest)) => Some((String(s), rest))
    else if t[0] == LBRACKET then
      if |t| > 1 && t[1] == RBRACKET then Some((Array([]), t[2..]))
      else
        match ReadItems(t[1..])
        case None => None
        case Some((items, rest)) => Some((Array(items), rest))
    else if t[0] == LBRACE then
      if |t| > 1 && t[1] == RBRACE then Some((Object([]), t[2..]))
      else
        match ReadMembers(t[1..])
        case None => None
        case Some((ms, rest)) => Some((Object(ms), rest))
    else if NULL_TEXT <= t then Some((Null, t[4..]))
    else if TRUE_TEXT <= t then Some((Bool(true), t[4..]))
    else if FALSE_TEXT <= t then Some((Bool(false), t[5..]))
    else if NumberSpan(t) > 0 then Some((Number(t[..NumberSpan(t)]), t[NumberSpan(t)..]))
    else None
  }

  function ReadItems(t: Units): (r: Option<(seq<Json>, Units)>)
    ensures r.Some? ==> |r.value.1| < |t|
    decreases |t|, 1
  {
    match ReadValue(t)
    case None => None
    case Some((v, rest)) =>
      if rest != [] && rest[0] == RBRACKET then Some(([v], rest[1..]))
      else if rest != [] && rest[0] == COMMA then
        match ReadItems(rest[1..])
        case None => None
        case Some((vs, rest')) => Some(([v] + vs, rest'))
      else None
  }

  function ReadMembers(t: Units): (r: Option<(seq<Entry<Json>>, Units)>)
    ensures r.Some? ==> |r.value.1| < |t|
    decreases |t|, 1
  {
    if t == [] || t[0] != QUOTE then None
    else
      match ReadUnits(t[1..])
      case None => None
      case Some((key, afterKey)) =>
        if afterKey == [] || afterKey[0] != COLON then None
        else
          match ReadValue(afterKey[1..])
          case None => None
          case Some((v, rest)) =>
            if rest != [] && rest[0] == RBRACE then Some(([Entry(key, v)], rest[1..]))
            else if rest != [] && rest[0] == COMMA then
              match ReadMembers(rest[1..])
              case None => None
              case Some((ms, rest')) => Some(([Entry(key, v)] + ms, rest'))
            else None
  }

  // ----- Strings read back -----

  lemma HexBack(n: int)
    requires 0 <= n < 16
    ensures HexOf(HexUnit(n)) == n
  {
  }

  lemma FourDigits(u: int)
    requires 0 <= u < 0x10000
    ensures u == u / 4096 * 4096 + u / 256 % 16 * 256 + u / 16 % 16 * 16 + u % 16
    ensures 0 <= u / 4096 < 16
  {
    assert u / 256 == u / 4096 * 16 + u / 256 % 16;
    assert u / 16 == u / 256 * 16 + u / 16 % 16;
  }

  lemma ReadEscapedUnit(s: Units, i: nat, rest: Units)
    requires i < |s|
    ensures EscapeUnit(s, i) != [] && (EscapeUnit(s, i) + rest)[0] != QUOTE
    ensures ReadUnit(EscapeUnit(s, i) + rest) == Some((s[i], |EscapeUnit(s, i)|))
  {
    var u := s[i];
    var t := EscapeUnit(s, i) + rest;
    FourDigits(u);
    if ShortEscape(u) == 0 && (u < 32 || LoneSurrogate(s, i)) {
      HexBack(u / 4096); HexBack(u / 256 % 16); HexBack(u / 16 % 16); HexBack(u % 16);
      assert t[2] == HexUnit(u / 4096) && t[3] == HexUnit(u / 256 % 16) && t[4] == HexUnit(u / 16 % 16) &&
          t[5] == HexUnit(u % 16);
    }
  }

  lemma {:induction false} ReadEscaped(s: Units, i: nat, rest: Units)
    requires i <= |s|
    ensures ReadUnits(EscapeFrom(s, i) + [QUOTE] + rest) == Some((s[i..], rest))
    decreases |s| - i
  {
    var t := EscapeFrom(s, i) + [QUOTE] + rest;
    if i == |s| {
      assert t == [QUOTE] + rest;
      assert t[1..] == rest && s[i..] == [];
    } else {
      var tail := EscapeFrom(s, i + 1) + [QUOTE] + rest;
      assert t == EscapeUnit(s, i) + tail;
      ReadEscapedUnit(s, i, tail);
      assert t[|EscapeUnit(s, i)|..] == tail;
      ReadEscaped(s, i + 1, rest);
      assert [s[i]] + s[i + 1..] == s[i..];
    }
  }

  lemma ReadQuoted(s: Units, rest: Units)
    ensures var t := Quote(s) + rest; t[0] == QUOTE && ReadUnits(t[1..]) == Some((s, rest))
  {
    ReadEscaped(s, 0, rest);
    assert (Quote(s) + rest)[1..] == EscapeFrom(s, 0) + [QUOTE] + rest;
    assert s[0..] == s;
  }

  // ----- Sorting -----

  lemma {:induction false} LeqTotal(a: Units, b: Units)
    ensures Leq(a, b) || Leq(b, a)
    ensures Leq(a, b) && Leq(b, a) ==> a == b
  {
    if a != [] && b != [] && a[0] == b[0] {
      LeqTotal(a[1..], b[1..]);
      if a[1..] == b[1..] { assert a == [a[0]] + a[1..] == b; }
    }
  }

  lemma {:induction false} LeqTransitive(a: Units, b: Units, c: Units)
    requires Leq(a, b) && Leq(b, c)
    ensures Leq(a, c)
  {
    if a != [] && a[0] == b[0] && b[0] == c[0] { LeqTransitive(a[1..], b[1..], c[1..]); }
  }

  ghost predicate Ordered<T>(es: seq<Entry<T>>) {
    forall i, j :: 0 <= i < j < |es| ==> Leq(es[i].key, es[j].key)
  }

  lemma {:induction false} InsertKeeps<T>(e: Entry<T>, es: seq<Entry<T>>)
    requires Ordered(es)
    ensures Ordered(Insert(e, es))
    ensures multiset(Insert(e, es)) == multiset{e} + multiset(es)
  {
    if es == [] {
    } else if Leq(e.key, es[0].key) {
      forall j | 0 <= j < |es| ensures Leq(e.key, es[j].key) {
        if j > 0 { LeqTransitive(e.key, es[0].key, es[j].key); }
      }
    } else {
      LeqTotal(e.key, es[0].key);
      InsertKeeps(e, es[1..]);
      var r := Insert(e, es[1..]);
      assert es == [es[0]] + es[1..];
      forall j | 0 <= j < |r| ensures Leq(es[0].key, r[j].key) {
        assert r[j] in multiset(r);
        assert r[j] == e || r[j] in es[1..];
      }
    }
  }

  lemma {:induction false} SortKeeps<T>(es: seq<Entry<T>>)
    ensures Ordered(SortByKey(es))
    ensures multiset(SortByKey(es)) == multiset(es)
  {
    if es != [] {
      SortKeeps(es[1..]);
      InsertKeeps(es[0], SortByKey(es[1..]));
      assert es == [es[0]] + es[1..];
    }
  }

  lemma SameElements<T>(a: seq<T>, b: seq<T>)
    requires multiset(a) == multiset(b)
    ensures |a| == |b|
    ensures forall x :: x in a <==> x in b
  {
    assert |a| == |multiset(a)| && |b| == |multiset(b)|;
    assert forall x :: x in a <==> x in multiset(a);
    assert forall x :: x in b <==> x in multiset(b);
  }

  lemma TailMembers<T>(a: seq<Entry<T>>)
    requires a != [] && DistinctKeys(a)
    ensures forall x :: x in a[1..] <==> x in a && x != a[0]
  {
    assert a == [a[0]] + a[1..];
    forall x | x in a[1..] ensures x != a[0] {
      var i :| 0 <= i < |a[1..]| && a[1..][i] == x;
      assert a[i + 1] == x;
    }
  }

  /** Ordered sequences with the same elements and no key twice are equal. */
  lemma {:induction false} OrderedUnique<T>(a: seq<Entry<T>>, b: seq<Entry<T>>)
    requires Ordered(a) && Ordered(b) && DistinctKeys(a) && DistinctKeys(b)
    requires forall x :: x in a <==> x in b
    ensures a == b
  {
    assert a == [] <==> b == [] by {
      if a != [] { assert a[0] in a; }
      if b != [] { assert b[0] in b; }
    }
    if a != [] {
      assert a[0] in a && b[0] in b;
      LeqTotal(a[0].key, b[0].key);
      assert a[0] == b[0];
      TailMembers(a);
      TailMembers(b);
      OrderedUnique(a[1..], b[1..]);
      assert a == [a[0]] + a[1..] && b == [b[0]] + b[1..];
    }
  }

  lemma {:induction false} InsertDistinct<T>(e: Entry<T>, es: seq<Entry<T>>)
    requires Ordered(es) && DistinctKeys(es)
    requires forall k :: 0 <= k < |es| ==> es[k].key != e.key
    ensures DistinctKeys(Insert(e, es))
  {
    if es != [] && !Leq(e.key, es[0].key) {
      InsertDistinct(e, es[1..]);
      InsertKeeps(e, es[1..]);
      var r := Insert(e, es[1..]);
      forall j | 0 <= j < |r| ensures es[0].key != r[j].key {
        assert r[j] in multiset(r);
        assert r[j] == e || r[j] in es[1..];
      }
    }
  }

  lemma {:induction false} SortedKeysDistinct<T>(es: seq<Entry<T>>)
    requires DistinctKeys(es)
    ensures DistinctKeys(SortByKey(es))
  {
    if es != [] {
      SortedKeysDistinct(es[1..]);
      SortKeeps(es[1..]);
      var r := SortByKey(es[1..]);
      forall k | 0 <= k < |r| ensures r[k].key != es[0].key {
        assert r[k] in multiset(r);
        assert r[k] in es[1..];
        var i :| 0 <= i < |es[1..]| && es[1..][i] == r[k];
        assert es[i + 1] == r[k];
      }
      InsertDistinct(es[0], r);
    }
  }

  // ----- The canonical text is the plain print of the sorted tree, and reads back to it -----

  /** Sorting members and printing their values commute. */
  lemma {:induction false} SortPrintCommute(ms: seq<Entry<Json>>)
    ensures SortByKey(CanonicalValues(ms)) == CanonicalValues(SortByKey(ms))
  {
    if ms != [] {
      SortPrintCommute(ms[1..]);
      InsertPrintCommute(ms[0], SortByKey(ms[1..]));
      assert CanonicalValues(ms)[1..] == CanonicalValues(ms[1..]);
    }
  }

  lemma {:induction false} InsertPrintCommute(m: Entry<Json>, ms: seq<Entry<Json>>)
    ensures Insert(Entry(m.key, Canonical(m.value)), CanonicalValues(ms)) == CanonicalValues(Insert(m, ms))
  {
    if ms != [] {
      assert CanonicalValues(ms)[1..] == CanonicalValues(ms[1..]);
      if Leq(m.key, ms[0].key) {
        assert ([m] + ms)[1..] == ms;
      } else {
        InsertPrintCommute(m, ms[1..]);
        assert ([ms[0]] + Insert(m, ms[1..]))[1..] == Insert(m, ms[1..]);
      }
    }
  }

  /** Likewise sorting members and sorting inside their values. */
  lemma {:induction false} SortSortCommute(ms: seq<Entry<Json>>)
    ensures SortByKey(SortValues(ms)) == SortValues(SortByKey(ms))
  {
    if ms != [] {
      SortSortCommute(ms[1..]);
      InsertSortCommute(ms[0], SortByKey(ms[1..]));
      assert SortValues(ms)[1..] == SortValues(ms[1..]);
    }
  }

  lemma {:induction false} InsertSortCommute(m: Entry<Json>, ms: seq<Entry<Json>>)
    ensures Insert(Entry(m.key, SortKeys(m.value)), SortValues(ms)) == SortValues(Insert(m, ms))
  {
    if ms != [] {
      assert SortValues(ms)[1..] == SortValues(ms[1..]);
      if Leq(m.key, ms[0].key) {
        assert ([m] + ms)[1..] == ms;
      } else {
        InsertSortCommute(m, ms[1..]);
        assert ([ms[0]] + Insert(m, ms[1..]))[1..] == Insert(m, ms[1..]);
      }
    }
  }

  /** Nothing that could continue a number follows. */
  ghost predicate Delimited(rest: Units) { rest == [] || !NumberUnit(rest[0]) }

  ghost predicate ReadsBack(v: Json) {
    forall rest | Delimited(rest) :: ReadValue(Canonical(v) + rest) == Some((SortKeys(v), rest))
  }

  lemma {:induction false} SpanOfNumber(t: Units, rest: Units)
    requires forall i :: 0 <= i < |t| ==> NumberUnit(t[i])
    requires Delimited(rest)
    ensures NumberSpan(t + rest) == |t|
  {
    if t == [] {
      assert t + rest == rest;
    } else {
      assert (t + rest)[1..] == t[1..] + rest;
      SpanOfNumber(t[1..], rest);
    }
  }

  lemma NumberReadsBack(t: Units)
    requires NumberLexeme(t)
    ensures ReadsBack(Number(t))
  {
    forall rest | Delimited(rest) ensures ReadValue(t + rest) == Some((Number(t), rest)) {
      SpanOfNumber(t, rest);
      assert (t + rest)[0] == t[0];
      assert (t + rest)[..|t|] == t && (t + rest)[|t|..] == rest;
    }
  }

  lemma StringReadsBack(s: Units)
    ensures ReadsBack(String(s))
  {
    forall rest | Delimited(rest) ensures ReadValue(Quote(s) + rest) == Some((String(s), rest)) {
      ReadQuoted(s, rest);
    }
  }

  lemma Reassociate(a: Units, b: Units, c: Units, d: Units)
    ensures a + b + c + d == a + (b + (c + d))
  {
  }

  lemma JoinTextsHead(ts: seq<Units>, tail: Units)
    requires ts != []
    ensures JoinTexts(ts) + tail == ts[0] + (if |ts| == 1 then tail else [COMMA] + (JoinTexts(ts[1..]) + tail))
  {
    Reassociate(ts[0], [COMMA], JoinTexts(ts[1..]), tail);
  }

  lemma ReadItemsStep(t: Units, v: Json, after: Units, more: seq<Json>, rest: Units)
    requires ReadValue(t) == Some((v, after)) && after != []
    requires (after[0] == RBRACKET && more == [] && rest == after[1..]) ||
             (after[0] == COMMA && ReadItems(after[1..]) == Some((more, rest)))
    ensures ReadItems(t) == Some(([v] + more, rest))
  {
    assert [v] + [] == [v];
  }

  lemma {:induction false} ItemsReadBack(items: seq<Json>, tail: Units)
    requires items != [] && tail != [] && tail[0] == RBRACKET
    requires forall i :: 0 <= i < |items| ==> ReadsBack(items[i])
    ensures ReadItems(JoinTexts(CanonicalItems(items)) + tail) == Some((SortItems(items), tail[1..]))
  {
    hide ReadValue;
    var ts := CanonicalItems(items);
    JoinTextsHead(ts, tail);
    assert ReadsBack(items[0]);
    if |items| == 1 {
      ReadItemsStep(ts[0] + tail, SortKeys(items[0]), tail, [], tail[1..]);
    } else {
      var more := JoinTexts(ts[1..]) + tail;
      assert ts[1..] == CanonicalItems(items[1..]);
      ItemsReadBack(items[1..], tail);
      assert ([COMMA] + more)[1..] == more;
      ReadItemsStep(ts[0] + ([COMMA] + more), SortKeys(items[0]), [COMMA] + more, SortItems(items[1..]), tail[1..]);
    }
  }

  lemma ReadMembersStep(key: Units, text: Units, v: Json, after: Units, more: seq<Entry<Json>>, rest: Units)
    requires ReadValue(text + after) == Some((v, after)) && after != []
    requires (after[0] == RBRACE && more == [] && rest == after[1..]) ||
             (after[0] == COMMA && ReadMembers(after[1..]) == Some((more, rest)))
    ensures ReadMembers(Quote(key) + [COLON] + text + after) == Some(([Entry(key, v)] + more, rest))
  {
    var afterKey := [COLON] + (text + after);
    assert Quote(key) + [COLON] + text + after == Quote(key) + afterKey;
    assert afterKey[1..] == text + after;
    ReadQuoted(key, afterKey);
    assert [Entry(key, v)] + [] == [Entry(key, v)];
  }

  lemma {:induction false} MembersReadBack(ms: seq<Entry<Json>>, tail: Units)
    requires ms != [] && tail != [] && tail[0] == RBRACE
    requires forall i :: 0 <= i < |ms| ==> ReadsBack(ms[i].value)
    ensures ReadMembers(JoinTexts(MemberTexts(CanonicalValues(ms))) + tail) == Some((SortValues(ms), tail[1..]))
  {
    hide ReadValue, Quote;
    var key, text, v := ms[0].key, Canonical(ms[0].value), SortKeys(ms[0].value);
    var ts := MemberTexts(CanonicalValues(ms));
    JoinTextsHead(ts, tail);
    assert ReadsBack(ms[0].value);
    if |ms| == 1 {
      ReadMembersStep(key, text, v, tail, [], tail[1..]);
    } else {
      var more := JoinTexts(ts[1..]) + tail;
      assert CanonicalValues(ms)[1..] == CanonicalValues(ms[1..]);
      assert ts[1..] == MemberTexts(CanonicalValues(ms[1..]));
      MembersReadBack(ms[1..], tail);
      assert ([COMMA] + more)[1..] == more;
      ReadMembersStep(key, text, v, [COMMA] + more, SortValues(ms[1..]), tail[1..]);
    }
  }

  /** The first character of a value is never a closing bracket, so `[` and `{` commit. */
  lemma {:induction false} FirstUnit(v: Json)
    requires WellFormed(v)
    ensures Canonical(v) != [] && Canonical(v)[0] != RBRACKET
  {
  }

  /** Every well-formed tree's canonical text parses, whatever delimiter follows, to the sorted tree. */
  lemma {:induction false} AllReadBack(v: Json)
    requires WellFormed(v)
    ensures ReadsBack(v)
    decreases v
  {
    match v
    case Null =>
      forall rest | Delimited(rest) ensures ReadValue(Canonical(v) + rest) == Some((Null, rest)) {
        assert (NULL_TEXT + rest)[4..] == rest;
      }
    case Bool(b) =>
      forall rest | Delimited(rest) ensures ReadValue(Canonical(v) + rest) == Some((v, rest)) {
        assert (TRUE_TEXT + rest)[4..] == rest && (FALSE_TEXT + rest)[5..] == rest;
        assert (TRUE_TEXT + rest)[0] == 116 && (FALSE_TEXT + rest)[0] == 102;
      }
    case Number(t) => NumberReadsBack(t);
    case String(s) => StringReadsBack(s);
    case Array(items) =>
      forall i | 0 <= i < |items| ensures ReadsBack(items[i]) { AllReadBack(items[i]); }
      ArrayReadsBack(items);
    case Object(ms) =>
      forall i | 0 <= i < |ms| ensures ReadsBack(ms[i].value) { AllReadBack(ms[i].value); }
      ObjectReadsBack(ms);
  }

  lemma ReadArrayStep(body: Units, items: seq<Json>, rest: Units)
    requires body != []
    requires if items == [] then body[0] == RBRACKET && rest == body[1..]
             else body[0] != RBRACKET && ReadItems(body) == Some((items, rest))
    ensures ReadValue([LBRACKET] + body) == Some((Array(items), rest))
  {
    var t := [LBRACKET] + body;
    assert t[1..] == body && t[2..] == body[1..];
  }

  lemma ReadObjectStep(body: Units, ms: seq<Entry<Json>>, rest: Units)
    requires body != []
    requires if ms == [] then body[0] == RBRACE && rest == body[1..]
             else body[0] != RBRACE && ReadMembers(body) == Some((ms, rest))
    ensures ReadValue([LBRACE] + body) == Some((Object(ms), rest))
  {
    var t := [LBRACE] + body;
    assert t[1..] == body && t[2..] == body[1..];
  }

  lemma ArrayTextReads(items: seq<Json>, rest: Units)
    requires WellFormed(Array(items))
    requires forall i :: 0 <= i < |items| ==> ReadsBack(items[i])
    ensures ReadValue([LBRACKET] + JoinTexts(CanonicalItems(items)) + [RBRACKET] + rest) ==
            Some((Array(SortItems(items)), rest))
  {
    hide ReadsBack, ReadValue, ReadItems;
    var inner := JoinTexts(CanonicalItems(items));
    var tail := [RBRACKET] + rest;
    Reassociate([LBRACKET], inner, [RBRACKET], rest);
    assert tail[1..] == rest;
    if items == [] {
      assert inner + tail == tail;
    } else {
      FirstUnit(items[0]);
      JoinTextsHead(CanonicalItems(items), tail);
      ItemsReadBack(items, tail);
    }
    ReadArrayStep(inner + tail, SortItems(items), rest);
  }

  lemma ArrayReadsBack(items: seq<Json>)
    requires WellFormed(Array(items))
    requires forall i :: 0 <= i < |items| ==> ReadsBack(items[i])
    ensures ReadsBack(Array(items))
  {
    hide ReadValue, CanonicalItems, SortItems, JoinTexts;
    forall rest | Delimited(rest)
      ensures ReadValue(Canonical(Array(items)) + rest) == Some((SortKeys(Array(items)), rest))
    {
      ArrayTextReads(items, rest);
    }
  }

  lemma ObjectTextReads(sorted: seq<Entry<Json>>, rest: Units)
    requires forall i :: 0 <= i < |sorted| ==> ReadsBack(sorted[i].value)
    ensures ReadValue([LBRACE] + JoinTexts(MemberTexts(CanonicalValues(sorted))) + [RBRACE] + rest)
            == Some((Object(SortValues(sorted)), rest))
  {
    var inner := JoinTexts(MemberTexts(CanonicalValues(sorted)));
    var tail := [RBRACE] + rest;
    assert [LBRACE] + inner + [RBRACE] + rest == [LBRACE] + (inner + tail);
    assert tail[1..] == rest;
    if sorted == [] {
      assert inner + tail == tail;
    } else {
      JoinTextsHead(MemberTexts(CanonicalValues(sorted)), tail);
      MembersReadBack(sorted, tail);
    }
    ReadObjectStep(inner + tail, SortValues(sorted), rest);
  }

  lemma SortedReadBack(ms: seq<Entry<Json>>)
    requires forall i :: 0 <= i < |ms| ==> ReadsBack(ms[i].value)
    ensures forall i :: 0 <= i < |SortByKey(ms)| ==> ReadsBack(SortByKey(ms)[i].value)
  {
    hide ReadsBack;
    var sorted := SortByKey(ms);
    SortKeeps(ms);
    SameElements(sorted, ms);
    forall i | 0 <= i < |sorted| ensures ReadsBack(sorted[i].value) {
      assert sorted[i] in sorted;
    }
  }

  lemma ObjectReadsBack(ms: seq<Entry<Json>>)
    requires forall i :: 0 <= i < |ms| ==> ReadsBack(ms[i].value)
    ensures ReadsBack(Object(ms))
  {
    var sorted := SortByKey(ms);
    SortedReadBack(ms);
    SortPrintCommute(ms);
    SortSortCommute(ms);
    hide ReadValue, SortByKey, CanonicalValues, SortValues, JoinTexts, MemberTexts;
    forall rest | Delimited(rest)
      ensures ReadValue(Canonical(Object(ms)) + rest) == Some((SortKeys(Object(ms)), rest))
    {
      ObjectTextReads(sorted, rest);
    }
  }

  /** The canonical text of a tree is parsed back to the tree with its keys in order. */
  lemma CanonicalParses(v: Json)
    requires WellFormed(v)
    ensures ReadValue(Canonical(v)) == Some((SortKeys(v), []))
  {
    AllReadBack(v);
    assert Delimited([]) && Canonical(v) + [] == Canonical(v);
  }

  // ----- Equal text exactly for equal trees up to key order -----

  /** Printing cannot see key order: the sorted tree prints the same. */
  lemma {:induction false} CanonicalOfSorted(v: Json)
    requires WellFormed(v)
    ensures Canonical(SortKeys(v)) == Canonical(v)
    decreases v
  {
    match v
    case Array(items) =>
      forall i | 0 <= i < |items| ensures Canonical(SortKeys(items[i])) == Canonical(items[i]) {
        CanonicalOfSorted(items[i]);
      }
      CanonicalItemsPointwise(items, SortItems(items));
    case Object(ms) =>
      forall i | 0 <= i < |ms| ensures Canonical(SortKeys(ms[i].value)) == Canonical(ms[i].value) {
        CanonicalOfSorted(ms[i].value);
      }
      var sv := SortValues(ms);
      CanonicalValuesPointwise(ms, sv);
      SortPrintCommute(sv);
      SortKeeps(CanonicalValues(sv));
      SortedAlready(SortByKey(CanonicalValues(sv)));
      SortPrintCommute(SortByKey(sv));
    case _ =>
  }

  lemma {:induction false} CanonicalItemsPointwise(a: seq<Json>, b: seq<Json>)
    requires |a| == |b| && forall i :: 0 <= i < |a| ==> Canonical(b[i]) == Canonical(a[i])
    ensures CanonicalItems(a) == CanonicalItems(b)
  {
    if a != [] { CanonicalItemsPointwise(a[1..], b[1..]); }
  }

  lemma {:induction false} CanonicalValuesPointwise(a: seq<Entry<Json>>, b: seq<Entry<Json>>)
    requires |a| == |b|
    requires forall i :: 0 <= i < |a| ==> b[i].key == a[i].key && Canonical(b[i].value) == Canonical(a[i].value)
    ensures CanonicalValues(a) == CanonicalValues(b)
  {
    if a != [] { CanonicalValuesPointwise(a[1..], b[1..]); }
  }

  lemma {:induction false} SortedAlready<T>(es: seq<Entry<T>>)
    requires Ordered(es)
    ensures SortByKey(es) == es
  {
    if es != [] {
      SortedAlready(es[1..]);
      assert es == [es[0]] + es[1..];
    }
  }

  /** Some member of `ns` has the key of `m` and a value that sorts alike. */
  ghost predicate Covered(m: Entry<Json>, ns: seq<Entry<Json>>) {
    exists j :: 0 <= j < |ns| && ns[j].key == m.key && SortKeys(ns[j].value) == SortKeys(m.value)
  }

  ghost predicate Included<T(!new)>(a: seq<T>, b: seq<T>) { forall x :: x in a ==> x in b }

  lemma CoveredIsMembership(m: Entry<Json>, ns: seq<Entry<Json>>)
    ensures Covered(m, ns) <==> Entry(m.key, SortKeys(m.value)) in SortValues(ns)
  {
    var b := SortValues(ns);
    if Covered(m, ns) {
      var j :| 0 <= j < |ns| && ns[j].key == m.key && SortKeys(ns[j].value) == SortKeys(m.value);
      assert b[j] == Entry(m.key, SortKeys(m.value));
    }
    if Entry(m.key, SortKeys(m.value)) in b {
      var j :| 0 <= j < |b| && b[j] == Entry(m.key, SortKeys(m.value));
      assert ns[j].key == m.key;
    }
  }

  lemma CoversIsInclusion(ms: seq<Entry<Json>>, ns: seq<Entry<Json>>)
    ensures (forall i :: 0 <= i < |ms| ==> Covered(ms[i], ns)) <==> Included(SortValues(ms), SortValues(ns))
  {
    var a, b := SortValues(ms), SortValues(ns);
    forall i | 0 <= i < |ms| ensures Covered(ms[i], ns) <==> a[i] in b { CoveredIsMembership(ms[i], ns); }
    if forall i :: 0 <= i < |ms| ==> Covered(ms[i], ns) {
      forall x | x in a ensures x in b {
        var i :| 0 <= i < |a| && a[i] == x;
      }
    }
    if Included(a, b) {
      forall i | 0 <= i < |ms| ensures Covered(ms[i], ns) { assert a[i] in a; }
    }
  }

  /** Sorting forgets exactly the order of members. */
  lemma SortedEqualIsSameSet(a: seq<Entry<Json>>, b: seq<Entry<Json>>)
    requires DistinctKeys(a) && DistinctKeys(b)
    ensures SortByKey(a) == SortByKey(b) <==> Included(a, b) && Included(b, a)
  {
    if SortByKey(a) == SortByKey(b) {
      SortKeeps(a);
      SortKeeps(b);
      SameElements(a, b);
    }
    if Included(a, b) && Included(b, a) { SortOfSameSet(a, b); }
  }

  lemma SortOfSameSet<T>(a: seq<Entry<T>>, b: seq<Entry<T>>)
    requires DistinctKeys(a) && DistinctKeys(b)
    requires forall x :: x in a <==> x in b
    ensures SortByKey(a) == SortByKey(b)
  {
    SortKeeps(a);
    SortKeeps(b);
    SortedKeysDistinct(a);
    SortedKeysDistinct(b);
    SameElements(SortByKey(a), a);
    SameElements(SortByKey(b), b);
    OrderedUnique(SortByKey(a), SortByKey(b));
  }

  /** Equal up to key order is exactly equality of sorted trees. */
  lemma {:induction false} SameIsEqualSorted(v: Json, w: Json)
    requires WellFormed(v) && WellFormed(w)
    ensures Same(v, w) <==> SortKeys(v) == SortKeys(w)
    decreases v
  {
    match (v, w)
    case (Array(a), Array(b)) =>
      if |a| == |b| {
        forall i | 0 <= i < |a| ensures Same(a[i], b[i]) <==> SortItems(a)[i] == SortItems(b)[i] {
          SameIsEqualSorted(a[i], b[i]);
        }
        if forall i :: 0 <= i < |a| ==> Same(a[i], b[i]) { assert SortItems(a) == SortItems(b); }
      }
    case (Object(ms), Object(ns)) =>
      forall i, j | 0 <= i < |ms| && 0 <= j < |ns|
        ensures Same(ms[i].value, ns[j].value) <==> SortKeys(ms[i].value) == SortKeys(ns[j].value)
      {
        SameIsEqualSorted(ms[i].value, ns[j].value);
      }
      SameObjectsAgree(ms, ns);
    case _ =>
  }

  ghost predicate Paired(ms: seq<Entry<Json>>, ns: seq<Entry<Json>>) {
    forall i, j | 0 <= i < |ms| && 0 <= j < |ns| ::
      Same(ms[i].value, ns[j].value) <==> SortKeys(ms[i].value) == SortKeys(ns[j].value)
  }

  lemma MatchIsCovered(ms: seq<Entry<Json>>, ns: seq<Entry<Json>>)
    requires Paired(ms, ns)
    ensures forall i :: 0 <= i < |ms| ==> (HasMatch(ms[i], ns) <==> Covered(ms[i], ns))
    ensures forall j :: 0 <= j < |ns| ==> (IsMatched(ms, ns[j]) <==> Covered(ns[j], ms))
  {
  }

  lemma SameObjectsAgree(ms: seq<Entry<Json>>, ns: seq<Entry<Json>>)
    requires DistinctKeys(ms) && DistinctKeys(ns) && Paired(ms, ns)
    ensures Same(Object(ms), Object(ns)) <==> SortKeys(Object(ms)) == SortKeys(Object(ns))
  {
    hide HasMatch, IsMatched, Covered, Included, SortByKey;
    MatchIsCovered(ms, ns);
    CoversIsInclusion(ms, ns);
    CoversIsInclusion(ns, ms);
    SortedEqualIsSameSet(SortValues(ms), SortValues(ns));
  }

  /** Two trees have the same canonical text exactly when they are equal up to key order. */
  lemma CanonicalInjective(v: Json, w: Json)
    requires WellFormed(v) && WellFormed(w)
    ensures Canonical(v) == Canonical(w) <==> Same(v, w)
  {
    if Canonical(v) == Canonical(w) {
      CanonicalParses(v);
      CanonicalParses(w);
    }
    SameIsEqualSorted(v, w);
    if Same(v, w) {
      CanonicalOfSorted(v);
      CanonicalOfSorted(w);
    }
  }

  // ----- The text itself -----

  /** The code units of plain text. */
  function Ascii(s: string): Units
    requires forall i :: 0 <= i < |s| ==> s[i] < '\U{80}'
  {
    seq(|s|, i requires 0 <= i < |s| => s[i] as int)
  }

  /** The strings agree before `n`, and there the first ends or has the smaller code unit. */
  ghost predicate PartsAt(a: Units, b: Units, n: nat) {
    && n <= |a| && n <= |b| && (forall k :: 0 <= k < n ==> a[k] == b[k])
    && (n == |a| || (n < |b| && a[n] < b[n]))
  }

  /** `a` is a prefix of `b`, or has the smaller code unit where they first differ. */
  ghost predicate InUnitOrder(a: Units, b: Units) { exists n: nat :: PartsAt(a, b, n) }

  lemma {:induction false} LeqIsUnitOrder(a: Units, b: Units)
    ensures Leq(a, b) <==> InUnitOrder(a, b)
  {
    if a == [] {
      assert PartsAt(a, b, 0);
    } else if b != [] && a[0] == b[0] {
      LeqIsUnitOrder(a[1..], b[1..]);
      if n: nat :| PartsAt(a[1..], b[1..], n) { assert PartsAt(a, b, n + 1); }
      if n: nat :| PartsAt(a, b, n) { assert n > 0 && PartsAt(a[1..], b[1..], n - 1); }
    } else if b != [] && a[0] < b[0] {
      assert PartsAt(a, b, 0);
    }
  }

  ghost predicate Ascending<T>(es: seq<Entry<T>>) {
    forall i, j :: 0 <= i < j < |es| ==> InUnitOrder(es[i].key, es[j].key)
  }

  /** The key sort, used for printing and for the sorted tree alike, is by UTF-16 code units. */
  lemma KeysAscend<T>(es: seq<Entry<T>>)
    ensures Ascending(SortByKey(es))
  {
    var sorted := SortByKey(es);
    SortKeeps(es);
    forall i, j | 0 <= i < j < |sorted| ensures InUnitOrder(sorted[i].key, sorted[j].key) {
      LeqIsUnitOrder(sorted[i].key, sorted[j].key);
    }
  }

  /** The members of an object, printed in the order given. */
  function MembersText(ms: seq<Entry<Json>>): Units {
    if ms == [] then []
    else
      Quote(ms[0].key) + Ascii(":") + Canonical(ms[0].value) +
      (if |ms| == 1 then [] else Ascii(",") + MembersText(ms[1..]))
  }

  function ItemsText(items: seq<Json>): Units {
    if items == [] then []
    else Canonical(items[0]) + (if |items| == 1 then [] else Ascii(",") + ItemsText(items[1..]))
  }

  lemma {:induction false} MembersTextJoined(ms: seq<Entry<Json>>)
    ensures JoinTexts(MemberTexts(CanonicalValues(ms))) == MembersText(ms)
  {
    hide Quote, Canonical;
    if ms != [] {
      MembersTextJoined(ms[1..]);
      assert CanonicalValues(ms)[1..] == CanonicalValues(ms[1..]);
      var ts := MemberTexts(CanonicalValues(ms));
      assert ts[1..] == MemberTexts(CanonicalValues(ms[1..]));
      MemberTextsLength(CanonicalValues(ms[1..]));
      assert Ascii(":") == [COLON] && Ascii(",") == [COMMA];
    }
  }

  lemma {:induction false} MemberTextsLength(es: seq<Entry<Units>>)
    ensures |MemberTexts(es)| == |es|
  {
    if es != [] { MemberTextsLength(es[1..]); }
  }

  lemma {:induction false} ItemsTextJoined(items: seq<Json>)
    ensures JoinTexts(CanonicalItems(items)) == ItemsText(items)
  {
    hide Canonical;
    if items != [] {
      ItemsTextJoined(items[1..]);
      assert CanonicalItems(items)[1..] == CanonicalItems(items[1..]);
      assert Ascii(",") == [COMMA];
    }
  }

  /**
   * An object is printed with its members rearranged, none lost or added, so that their keys
   * ascend by UTF-16 code units.
   */
  lemma ObjectText(ms: seq<Entry<Json>>) returns (sorted: seq<Entry<Json>>)
    ensures multiset(sorted) == multiset(ms) && Ascending(sorted)
    ensures Canonical(Object(ms)) == Ascii("{") + MembersText(sorted) + Ascii("}")
  {
    sorted := SortByKey(ms);
    SortKeeps(ms);
    KeysAscend(ms);
    SortPrintCommute(ms);
    MembersTextJoined(sorted);
    hide SortByKey, MembersText, MemberTexts, JoinTexts, CanonicalValues;
    assert Ascii("{") == [LBRACE] && Ascii("}") == [RBRACE];
  }

  /** Everything else is printed as JSON is. */
  lemma PlainTexts(items: seq<Json>, s: Units, lexeme: Units)
    ensures Canonical(Null) == Ascii("null")
    ensures Canonical(Bool(true)) == Ascii("true") && Canonical(Bool(false)) == Ascii("false")
    ensures Canonical(Number(lexeme)) == lexeme
    ensures Canonical(String(s)) == Ascii("\"") + EscapeFrom(s, 0) + Ascii("\"")
    ensures Canonical(Array(items)) == Ascii("[") + ItemsText(items) + Ascii("]")
  {
    ItemsTextJoined(items);
    hide ItemsText, JoinTexts, CanonicalItems, EscapeFrom;
    assert Ascii("\"") == [QUOTE] && Ascii("[") == [LBRACKET] && Ascii("]") == [RBRACKET];
  }

  const HEX_DIGITS := "0123456789abcdef"

  /** A surrogate without its other half. */
  ghost predicate Unpaired(s: Units, i: nat)
    requires i < |s|
  {
    || (0xD800 <= s[i] <= 0xDBFF && (i + 1 == |s| || s[i + 1] < 0xDC00 || s[i + 1] > 0xDFFF))
    || (0xDC00 <= s[i] <= 0xDFFF && (i == 0 || s[i - 1] < 0xD800 || s[i - 1] > 0xDBFF))
  }

  /**
   * `JSON.stringify` escapes the quote, the backslash, control characters and unpaired
   * surrogates, and nothing else: five controls by a letter, the others by four hex digits.
   */
  lemma EscapesExactly(s: Units, i: nat)
    requires i < |s|
    ensures var u := s[i];
            EscapeUnit(s, i) ==
            if u == 0x22 then Ascii("\\\"") else if u == 0x5C then Ascii("\\\\")
            else if u == 0x08 then Ascii("\\b") else if u == 0x09 then Ascii("\\t")
            else if u == 0x0A then Ascii("\\n") else if u == 0x0C then Ascii("\\f")
            else if u == 0x0D then Ascii("\\r")
            else if u < 0x20 || Unpaired(s, i) then
              Ascii("\\u") +
              Ascii([HEX_DIGITS[u / 4096], HEX_DIGITS[u / 256 % 16], HEX_DIGITS[u / 16 % 16], HEX_DIGITS[u % 16]])
            else [u]
  {
    var u := s[i];
    HexDigitsAre(u / 4096);
    HexDigitsAre(u / 256 % 16);
    HexDigitsAre(u / 16 % 16);
    HexDigitsAre(u % 16);
  }

  lemma HexDigitsAre(n: int)
    requires 0 <= n < 16
    ensures HEX_DIGITS[n] < '\U{80}' && HexUnit(n) == HEX_DIGITS[n] as int
  {
  }
}
