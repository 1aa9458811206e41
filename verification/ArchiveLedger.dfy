/**
 * The byte-quota ledger of the brand intelligence archive: one row per object key, charged
 * while `pending` or `stored`, reserved before the upload and settled after it.
 */
module ArchiveLedger {
  import opened Text
  import opened Rows
  import Percent

  datatype Tenant = Tenant(organizationId: string, assistantId: string, brandId: string)

  // ----- Object keys -----

  function TenantPath(t: Tenant): seq<string> {
    ["brand-intelligence", Percent.Encode(t.organizationId), Percent.Encode(t.assistantId), Percent.Encode(t.brandId)]
  }

  datatype ObjectName = Snapshot(snapshotId: string) | Visual(checksum: string, extension: string)

  function NamePath(name: ObjectName): seq<string> {
    match name
    case Snapshot(id) => ["snapshots", id + ".json"]
    case Visual(checksum, extension) => ["visuals", checksum + "." + extension]
  }

  /** `archiveSnapshotObjectKey` and `archiveVisualObjectKey`. */
  function ObjectKey(t: Tenant, name: ObjectName): string {
    Join(TenantPath(t) + NamePath(name), '/')
  }

  /** Encoding is injective. */
  lemma EncodeInjective(a: string, b: string)
    requires Percent.Encode(a) == Percent.Encode(b)
    ensures a == b
  {
    Percent.DecodeEncode(a);
    Percent.DecodeEncode(b);
  }

  lemma EncodedHasNoSlash(s: string)
    ensures Lacks(Percent.Encode(s), '/')
  {
    Percent.EncodeAlphabet(s);
  }

  lemma KeySegments(t: Tenant, name: ObjectName)
    ensures TenantPath(t) <= Split(ObjectKey(t, name), '/')
  {
    var path := TenantPath(t);
    hide Percent.Encode;
    EncodedHasNoSlash(t.organizationId);
    EncodedHasNoSlash(t.assistantId);
    EncodedHasNoSlash(t.brandId);
    KeySegmentsOf(path, NamePath(name));
  }

  lemma KeySegmentsOf(path: seq<string>, rest: seq<string>)
    requires |path| >= 1 && |rest| >= 1
    requires forall i :: 0 <= i < |path| ==> Lacks(path[i], '/')
    ensures path <= Split(Join(path + rest, '/'), '/')
  {
    JoinConcat(path, rest, '/');
    SplitConcat(Join(path, '/'), '/', Join(rest, '/'));
    SplitOfJoin(path, '/');
  }

  /** A key belongs to one tenant only, so a key's row can be re-reserved only by its own brand. */
  lemma KeyDeterminesTenant(t: Tenant, name: ObjectName, t': Tenant, name': ObjectName)
    requires ObjectKey(t, name) == ObjectKey(t', name')
    ensures t == t'
  {
    KeySegments(t, name);
    KeySegments(t', name');
    var s := Split(ObjectKey(t, name), '/');
    assert s[..4] == TenantPath(t) == TenantPath(t');
    assert TenantPath(t)[1] == TenantPath(t')[1] && TenantPath(t)[2] == TenantPath(t')[2] &&
        TenantPath(t)[3] == TenantPath(t')[3];
    EncodeInjective(t.organizationId, t'.organizationId);
    EncodeInjective(t.assistantId, t'.assistantId);
    EncodeInjective(t.brandId, t'.brandId);
  }

  lemma JoinPrefix(path: seq<string>, a: seq<string>, b: seq<string>)
    requires |path| >= 1 && |a| >= 1 && |b| >= 1 && Join(path + a, '/') == Join(path + b, '/')
    ensures Join(a, '/') == Join(b, '/')
  {
    JoinConcat(path, a, '/');
    JoinConcat(path, b, '/');
    var head := Join(path, '/') + ['/'];
    assert Join(path + a, '/')[|head|..] == Join(a, '/');
    assert Join(path + b, '/')[|head|..] == Join(b, '/');
  }

  lemma CancelAround(before: string, a: string, b: string, after: string)
    requires before + a + after == before + b + after
    ensures a == b
  {
    var s := before + a + after;
    assert |s| == |before| + |a| + |after| && |s| == |before| + |b| + |after|;
    assert a == s[|before|..|before| + |a|] && b == s[|before|..|before| + |b|];
  }

  lemma CancelHead(before: string, a: string, rest: string, b: string, rest': string)
    requires |a| == |b| && before + a + rest == before + b + rest'
    ensures a == b && rest == rest'
  {
    var s := before + a + rest;
    assert a == s[|before|..|before| + |a|] && b == s[|before|..|before| + |a|];
    assert rest == s[|before| + |a|..] && rest' == s[|before| + |a|..];
  }

  /**
   * Within a tenant the key determines the object: different snapshots, or visuals with different
   * SHA-256 checksums (64 digits each), never share a key, and no snapshot shares one with a visual.
   */
  lemma KeyDeterminesName(t: Tenant, name: ObjectName, name': ObjectName)
    requires ObjectKey(t, name) == ObjectKey(t, name')
    ensures name.Snapshot? ==> name' == name
    ensures name.Visual? ==> name'.Visual?
    ensures name.Visual? && |name.checksum| == |name'.checksum| == 64 ==> name' == name
  {
    JoinPrefix(TenantPath(t), NamePath(name), NamePath(name'));
    hide TenantPath, ObjectKey, NamePath, Join;
    NameText(name);
    NameText(name');
    NameInitial(name);
    NameInitial(name');
    if name.Snapshot? {
      CancelAround("snapshots/", name.snapshotId, name'.snapshotId, ".json");
    } else if |name.checksum| == |name'.checksum| {
      CancelHead("visuals/", name.checksum, "." + name.extension, name'.checksum, "." + name'.extension);
      assert ("." + name.extension)[1..] == name.extension && ("." + name'.extension)[1..] == name'.extension;
    }
  }

  function NameString(name: ObjectName): string {
    match name
    case Snapshot(id) => "snapshots/" + id + ".json"
    case Visual(checksum, extension) => "visuals/" + checksum + ("." + extension)
  }

  lemma NameInitial(name: ObjectName)
    ensures NameString(name) != "" && NameString(name)[0] == if name.Snapshot? then 's' else 'v'
  {
  }

  lemma JoinTwo(a: string, b: string)
    ensures Join([a, b], '/') == a + "/" + b
  {
    assert [a, b][1..] == [b];
  }

  lemma JoinFour(a: string, b: string, c: string, d: string)
    ensures Join([a, b, c, d], '/') == a + "/" + b + "/" + c + "/" + d
  {
    JoinTwo(c, d);
    assert [a, b, c, d][1..] == [b, c, d] && [b, c, d][1..] == [c, d];
    assert Join([b, c, d], '/') == b + ['/'] + Join([c, d], '/');
  }

  /** The part of a key after the tenant's. */
  lemma NameText(name: ObjectName)
    ensures Join(NamePath(name), '/') == NameString(name)
  {
    var path := NamePath(name);
    assert path == [path[0], path[1]];
    JoinTwo(path[0], path[1]);
    hide Join;
    if name.Snapshot? {
      assert path[0] + "/" == "snapshots/";
      assert path[0] + "/" + path[1] == (path[0] + "/") + name.snapshotId + ".json";
    } else {
      assert path[0] + "/" == "visuals/";
      assert path[0] + "/" + path[1] == (path[0] + "/") + name.checksum + ("." + name.extension);
    }
  }

  /** The whole key, spelled out. */
  lemma KeyText(t: Tenant, name: ObjectName)
    ensures ObjectKey(t, name) ==
            "brand-intelligence" + "/" + Percent.Encode(t.organizationId) + "/" + Percent.Encode(t.assistantId) + "/" +
            Percent.Encode(t.brandId) + "/" + NameString(name)
  {
    hide Percent.Encode, NameString;
    var path := TenantPath(t);
    NameText(name);
    JoinConcat(path, NamePath(name), '/');
    JoinFour(path[0], path[1], path[2], path[3]);
    hide Join;
  }

  // ----- The table -----

  datatype ObjectStatus = Pending | Stored | Failed

  datatype ObjectRow = ObjectRow(tenant: Tenant, key: string, size: nat, status: ObjectStatus)
  {
    /** `status IN ('pending', 'stored')`. */
    predicate Charged() { status != Failed }
  }

  datatype Limits = Limits(globalMaxBytes: nat, perBrandMaxBytes: nat)

  /** `readArchiveUsage`: charged bytes of the whole table or of one brand, one key left out. */
  function Usage(rows: seq<ObjectRow>, brand: Option<Tenant>, excludedKey: string): nat {
    if rows == [] then 0
    else
      var r := rows[|rows| - 1];
      Usage(rows[..|rows| - 1], brand, excludedKey) +
      (if r.Charged() && (brand.None? || brand.value == r.tenant) && r.key != excludedKey then r.size else 0)
  }

  /** What the limits are about: all charged bytes of the table, or of one brand. */
  ghost function ChargedBytes(rows: seq<ObjectRow>, brand: Option<Tenant>): nat {
    if rows == [] then 0
    else
      var r := rows[|rows| - 1];
      ChargedBytes(rows[..|rows| - 1], brand) +
      (if r.Charged() && (brand.None? || brand.value == r.tenant) then r.size else 0)
  }

  /** Index of the row with this key, or `|rows|`. */
  function Find(rows: seq<ObjectRow>, key: string): (i: nat)
    ensures i <= |rows|
    ensures i < |rows| ==> rows[i].key == key
    ensures i == |rows| ==> forall k :: 0 <= k < |rows| ==> rows[k].key != key
  {
    FindBy(rows, (r: ObjectRow) => r.key, key)
  }

  ghost predicate UniqueKeys(rows: seq<ObjectRow>) {
    forall i, j :: 0 <= i < j < |rows| ==> rows[i].key != rows[j].key
  }

  datatype PutOutcome = AlreadyStored | GlobalQuota | BrandQuota | EmptyBody | Reserved

  /** The synchronous first half of `putObjectWithQuota`, up to the upload. */
  function BeginOutcome(rows: seq<ObjectRow>, limits: Limits, t: Tenant, key: string, size: nat): PutOutcome {
    var i := Find(rows, key);
    if i < |rows| && rows[i].status == Stored then AlreadyStored
    else if Usage(rows, None, key) + size > limits.globalMaxBytes then GlobalQuota
    else if Usage(rows, Some(t), key) + size > limits.perBrandMaxBytes then BrandQuota
    else if size == 0 then EmptyBody  // CHECK(size_bytes > 0)
    else Reserved
  }

  /** The upsert: a known key keeps its identity columns and takes the new size. */
  function Reserve(rows: seq<ObjectRow>, t: Tenant, key: string, size: nat): seq<ObjectRow> {
    var i := Find(rows, key);
    if i < |rows| then rows[i := rows[i].(size := size, status := Pending)]
    else rows + [ObjectRow(t, key, size, Pending)]
  }

  function BeginPut(rows: seq<ObjectRow>, limits: Limits, t: Tenant, key: string, size: nat): seq<ObjectRow> {
    if BeginOutcome(rows, limits, t, key, size).Reserved? then Reserve(rows, t, key, size) else rows
  }

  /** The update after the upload settled. */
  function Settle(rows: seq<ObjectRow>, key: string, stored: bool): seq<ObjectRow> {
    var i := Find(rows, key);
    if i < |rows| then rows[i := rows[i].(status := if stored then Stored else Failed)] else rows
  }

  /** Restart recovery: an interrupted upload gives its reservation back. */
  function Recover(rows: seq<ObjectRow>): (r: seq<ObjectRow>)
    ensures |r| == |rows|
    ensures forall i :: 0 <= i < |rows| ==>
              r[i] == if rows[i].status == Pending then rows[i].(status := Failed) else rows[i]
  {
    seq(|rows|, i requires 0 <= i < |rows| =>
      if rows[i].status == Pending then rows[i].(status := Failed) else rows[i])
  }

  class ArchiveObjects {
    var rows: seq<ObjectRow>
    const limits: Limits

    constructor (limits: Limits)
      ensures rows == [] && this.limits == limits
    {
      this.limits := limits;
      rows := [];
    }

    method BeginPutObject(t: Tenant, key: string, size: nat) returns (outcome: PutOutcome)
      modifies this
      ensures outcome == BeginOutcome(old(rows), limits, t, key, size)
      ensures rows == BeginPut(old(rows), limits, t, key, size)
    {
      var i := Find(rows, key);
      if i < |rows| && rows[i].status == Stored { return AlreadyStored; }
      if Usage(rows, None, key) + size > limits.globalMaxBytes { return GlobalQuota; }
      if Usage(rows, Some(t), key) + size > limits.perBrandMaxBytes { return BrandQuota; }
      if size == 0 { return EmptyBody; }
      if i < |rows| {
        rows := rows[i := rows[i].(size := size, status := Pending)];
      } else {
        rows := rows + [ObjectRow(t, key, size, Pending)];
      }
      return Reserved;
    }

    method FinishPutObject(key: string, stored: bool)
      modifies this
      ensures rows == Settle(old(rows), key, stored)
    {
      var i := Find(rows, key);
      if i < |rows| { rows := rows[i := rows[i].(status := if stored then Stored else Failed)]; }
    }

    method RecoverAfterRestart()
      modifies this
      ensures rows == Recover(old(rows))
    {
      rows := Recover(rows);
    }
  }

  // ----- Runs -----

  datatype State = State(rows: seq<ObjectRow>, uploading: set<string>)

  datatype Event =
    | Put(tenant: Tenant, name: ObjectName, size: nat)
    | Uploaded(key: string)
    | UploadFailed(key: string)
    | Restart

  function StepPut(s: State, limits: Limits, t: Tenant, key: string, size: nat): State {
    State(BeginPut(s.rows, limits, t, key, size),
          if BeginOutcome(s.rows, limits, t, key, size).Reserved? then s.uploading + {key} else s.uploading)
  }

  function Step(s: State, limits: Limits, e: Event): State {
    match e
    case Put(t, name, size) => StepPut(s, limits, t, ObjectKey(t, name), size)
    case Uploaded(key) => State(Settle(s.rows, key, true), s.uploading - {key})
    case UploadFailed(key) => State(Settle(s.rows, key, false), s.uploading - {key})
    case Restart => State(Recover(s.rows), {})
  }

  /** Uploads finish once each, and no put starts on a key whose upload is still under way. */
  predicate Allowed(s: State, e: Event) {
    match e
    case Put(t, name, _) => ObjectKey(t, name) !in s.uploading
    case Uploaded(key) => key in s.uploading
    case UploadFailed(key) => key in s.uploading
    case Restart => true
  }

  function Run(s: State, limits: Limits, events: seq<Event>): State {
    if events == [] then s
    else Step(Run(s, limits, events[..|events| - 1]), limits, events[|events| - 1])
  }

  predicate AllowedRun(s: State, limits: Limits, events: seq<Event>) {
    events == [] ||
    (AllowedRun(s, limits, events[..|events| - 1]) &&
     Allowed(Run(s, limits, events[..|events| - 1]), events[|events| - 1]))
  }

  /** The worker's discipline: a put starts only when nothing is uploading. */
  predicate SingleFlightRun(s: State, limits: Limits, events: seq<Event>) {
    events == [] ||
    (var before := Run(s, limits, events[..|events| - 1]);
     var e := events[|events| - 1];
     SingleFlightRun(s, limits, events[..|events| - 1]) && Allowed(before, e) && (e.Put? ==> before.uploading == {}))
  }

  ghost predicate WithinLimits(rows: seq<ObjectRow>, limits: Limits) {
    && ChargedBytes(rows, None) <= limits.globalMaxBytes
    && forall t: Tenant :: ChargedBytes(rows, Some(t)) <= limits.perBrandMaxBytes
  }

  /** Rows are keyed by the builders above, under the tenant they are charged to. */
  ghost predicate Keyed(t: Tenant, key: string) { exists name :: key == ObjectKey(t, name) }

  ghost predicate Inv(s: State, limits: Limits) {
    && UniqueKeys(s.rows)
    && (forall i :: 0 <= i < |s.rows| ==> Keyed(s.rows[i].tenant, s.rows[i].key))
    && WithinLimits(s.rows, limits)
    && (forall i :: 0 <= i < |s.rows| ==> s.rows[i].size > 0)
    && (forall key :: key in s.uploading ==>
         Find(s.rows, key) < |s.rows| && s.rows[Find(s.rows, key)].status == Pending)
  }

  ghost function Charge(r: ObjectRow, brand: Option<Tenant>): nat {
    if r.Charged() && (brand.None? || brand.value == r.tenant) then r.size else 0
  }

  lemma {:induction false} UpdateBytes(rows: seq<ObjectRow>, i: nat, r: ObjectRow, brand: Option<Tenant>)
    requires i < |rows|
    ensures ChargedBytes(rows[i := r], brand) + Charge(rows[i], brand) == ChargedBytes(rows, brand) + Charge(r, brand)
  {
    var n := |rows| - 1;
    if i == n {
      assert rows[i := r][..n] == rows[..n];
    } else {
      assert rows[i := r][..n] == rows[..n][i := r];
      UpdateBytes(rows[..n], i, r, brand);
    }
  }

  lemma AppendBytes(rows: seq<ObjectRow>, r: ObjectRow, brand: Option<Tenant>)
    ensures ChargedBytes(rows + [r], brand) == ChargedBytes(rows, brand) + Charge(r, brand)
  {
    assert (rows + [r])[..|rows|] == rows;
  }

  /** Leaving a key out of the sum removes exactly its row's charge. */
  lemma {:induction false} UsageExcludes(rows: seq<ObjectRow>, brand: Option<Tenant>, key: string)
    requires UniqueKeys(rows)
    ensures var i := Find(rows, key);
            Usage(rows, brand, key) + (if i < |rows| then Charge(rows[i], brand) else 0) == ChargedBytes(rows, brand)
  {
    if rows != [] {
      var n := |rows| - 1;
      UsageExcludes(rows[..n], brand, key);
      FindInPrefix(rows, key);
    }
  }

  lemma FindInPrefix(rows: seq<ObjectRow>, key: string)
    requires rows != [] && UniqueKeys(rows)
    ensures var n := |rows| - 1;
            Find(rows, key) == if rows[n].key == key then n
                else if Find(rows[..n], key) < n then Find(rows[..n], key) else n + 1
  {
    var i, j := Find(rows, key), Find(rows[..|rows| - 1], key);
    assert j < |rows| - 1 ==> rows[j].key == key;
    assert i < |rows| - 1 ==> rows[..|rows| - 1][i].key == key;
  }

  lemma FindUnique(rows: seq<ObjectRow>, key: string, i: nat)
    requires UniqueKeys(rows) && i < |rows| && rows[i].key == key
    ensures Find(rows, key) == i
  {
  }

  lemma KeyedOnce(t: Tenant, t': Tenant, key: string)
    requires Keyed(t, key) && Keyed(t', key)
    ensures t == t'
  {
    var name :| key == ObjectKey(t, name);
    var name' :| key == ObjectKey(t', name');
    KeyDeterminesTenant(t, name, t', name');
  }

  /** An accepted reservation adds its size to what the check summed, and to nothing else. */
  lemma ReserveBytes(rows: seq<ObjectRow>, t: Tenant, key: string, size: nat, brand: Option<Tenant>)
    requires UniqueKeys(rows) && Keyed(t, key)
    requires forall i :: 0 <= i < |rows| ==> Keyed(rows[i].tenant, rows[i].key)
    ensures ChargedBytes(Reserve(rows, t, key, size), brand) ==
            Usage(rows, brand, key) + (if brand.None? || brand.value == t then size else 0)
  {
    hide Keyed, Find, Usage, ChargedBytes;
    var i := Find(rows, key);
    UsageExcludes(rows, brand, key);
    if i < |rows| {
      KeyedOnce(rows[i].tenant, t, key);
      UpdateBytes(rows, i, rows[i].(size := size, status := Pending), brand);
    } else {
      AppendBytes(rows, ObjectRow(t, key, size, Pending), brand);
    }
  }

  lemma ReserveWithinLimits(s: State, limits: Limits, t: Tenant, key: string, size: nat)
    requires Inv(s, limits) && Keyed(t, key)
    requires BeginOutcome(s.rows, limits, t, key, size).Reserved?
    ensures WithinLimits(Reserve(s.rows, t, key, size), limits)
  {
    ReserveBytes(s.rows, t, key, size, None);
    forall b: Tenant ensures ChargedBytes(Reserve(s.rows, t, key, size), Some(b)) <= limits.perBrandMaxBytes {
      ReserveBytes(s.rows, t, key, size, Some(b));
      UsageExcludes(s.rows, Some(b), key);
    }
  }

  lemma SameKeysFind(a: seq<ObjectRow>, b: seq<ObjectRow>, key: string)
    requires |a| <= |b| && UniqueKeys(a) && UniqueKeys(b)
    requires forall i :: 0 <= i < |a| ==> b[i].key == a[i].key
    ensures Find(a, key) < |a| ==> Find(b, key) == Find(a, key)
  {
    if Find(a, key) < |a| { FindUnique(b, key, Find(a, key)); }
  }

  lemma ReserveKeepsShape(rows: seq<ObjectRow>, t: Tenant, key: string, size: nat)
    requires UniqueKeys(rows) && Keyed(t, key) && size > 0
    requires forall i :: 0 <= i < |rows| ==> Keyed(rows[i].tenant, rows[i].key) && rows[i].size > 0
    ensures var r := Reserve(rows, t, key, size);
            && UniqueKeys(r)
            && |rows| <= |r| && (forall i :: 0 <= i < |rows| ==> r[i].key == rows[i].key)
            && (forall i :: 0 <= i < |r| ==> Keyed(r[i].tenant, r[i].key) && r[i].size > 0)
            && (forall i :: 0 <= i < |rows| && rows[i].key != key ==> r[i] == rows[i])
            && Find(rows, key) < |r| && r[Find(rows, key)].key == key && r[Find(rows, key)].status == Pending
  {
    hide Keyed;
    var i := Find(rows, key);
    if i < |rows| {
      KeyedOnce(rows[i].tenant, t, key);
    }
  }

  lemma PutKeepsInv(s: State, limits: Limits, t: Tenant, key: string, size: nat)
    requires Inv(s, limits) && key !in s.uploading && Keyed(t, key)
    ensures Inv(StepPut(s, limits, t, key, size), limits)
  {
    hide Keyed, Usage, ChargedBytes, WithinLimits;
    if BeginOutcome(s.rows, limits, t, key, size).Reserved? {
      var rows := Reserve(s.rows, t, key, size);
      ReserveKeepsShape(s.rows, t, key, size);
      assert WithinLimits(rows, limits) by { ReserveWithinLimits(s, limits, t, key, size); }
      FindUnique(rows, key, Find(s.rows, key));
      forall k | k in s.uploading ensures Find(rows, k) < |rows| && rows[Find(rows, k)].status == Pending {
        SameKeysFind(s.rows, rows, k);
      }
    }
  }

  lemma SettleWithinLimits(s: State, limits: Limits, key: string, stored: bool)
    requires Inv(s, limits) && key in s.uploading
    ensures WithinLimits(Settle(s.rows, key, stored), limits)
  {
    hide Keyed;
    var i := Find(s.rows, key);
    var r := s.rows[i].(status := if stored then Stored else Failed);
    UpdateBytes(s.rows, i, r, None);
    forall t: Tenant ensures ChargedBytes(Settle(s.rows, key, stored), Some(t)) <= limits.perBrandMaxBytes {
      UpdateBytes(s.rows, i, r, Some(t));
    }
  }

  lemma SettleKeepsInv(s: State, limits: Limits, key: string, stored: bool)
    requires Inv(s, limits) && key in s.uploading
    ensures Inv(State(Settle(s.rows, key, stored), s.uploading - {key}), limits)
  {
    hide Keyed;
    var rows := Settle(s.rows, key, stored);
    SettleWithinLimits(s, limits, key, stored);
    hide ChargedBytes, WithinLimits;
    forall k | k in s.uploading - {key} ensures Find(rows, k) < |rows| && rows[Find(rows, k)].status == Pending {
      SameKeysFind(s.rows, rows, k);
    }
  }

  lemma {:induction false} RecoverBytes(rows: seq<ObjectRow>, brand: Option<Tenant>)
    ensures ChargedBytes(Recover(rows), brand) <= ChargedBytes(rows, brand)
  {
    if rows != [] {
      var n := |rows| - 1;
      assert Recover(rows)[..n] == Recover(rows[..n]);
      RecoverBytes(rows[..n], brand);
    }
  }

  lemma RestartKeepsInv(s: State, limits: Limits)
    requires Inv(s, limits)
    ensures Inv(State(Recover(s.rows), {}), limits)
  {
    hide Keyed, Find;
    RecoverWithinLimits(s.rows, limits);
    hide ChargedBytes, WithinLimits;
    assert UniqueKeys(Recover(s.rows));
  }

  lemma RecoverWithinLimits(rows: seq<ObjectRow>, limits: Limits)
    requires WithinLimits(rows, limits)
    ensures WithinLimits(Recover(rows), limits)
  {
    RecoverBytes(rows, None);
    forall t: Tenant ensures ChargedBytes(Recover(rows), Some(t)) <= limits.perBrandMaxBytes {
      RecoverBytes(rows, Some(t));
    }
  }

  lemma StepKeepsInv(s: State, limits: Limits, e: Event)
    requires Inv(s, limits) && Allowed(s, e)
    ensures Inv(Step(s, limits, e), limits)
  {
    hide Inv, BeginPut, BeginOutcome, Settle, ObjectKey;
    match e
    case Put(t, name, size) => PutKeepsInv(s, limits, t, ObjectKey(t, name), size);
    case Uploaded(key) => SettleKeepsInv(s, limits, key, true);
    case UploadFailed(key) => SettleKeepsInv(s, limits, key, false);
    case Restart => RestartKeepsInv(s, limits);
  }

  lemma {:induction false} RunKeepsInv(limits: Limits, events: seq<Event>)
    requires AllowedRun(State([], {}), limits, events)
    ensures Inv(Run(State([], {}), limits, events), limits)
  {
    if events != [] {
      RunKeepsInv(limits, events[..|events| - 1]);
      StepKeepsInv(Run(State([], {}), limits, events[..|events| - 1]), limits, events[|events| - 1]);
    }
  }

  /**
   * Over every run of puts, upload outcomes and restarts in which no put overlaps an upload
   * of the same key, charged bytes stay within the global limit and within every brand's.
   */
  lemma QuotaHolds(limits: Limits, events: seq<Event>, t: Tenant)
    requires AllowedRun(State([], {}), limits, events)
    ensures var rows := Run(State([], {}), limits, events).rows;
            ChargedBytes(rows, None) <= limits.globalMaxBytes && ChargedBytes(rows, Some(t)) <= limits.perBrandMaxBytes
  {
    RunKeepsInv(limits, events);
  }

  /** The single-flight worker never overlaps uploads, so the quota holds for it. */
  lemma {:induction false} SingleFlightIsAllowed(s: State, limits: Limits, events: seq<Event>)
    requires SingleFlightRun(s, limits, events)
    ensures AllowedRun(s, limits, events)
  {
    if events != [] { SingleFlightIsAllowed(s, limits, events[..|events| - 1]); }
  }

  /** Nothing is refused that would have fitted: a put of a new non-empty body is reserved exactly when it fits. */
  lemma FittingPutIsReserved(rows: seq<ObjectRow>, limits: Limits, t: Tenant, key: string, size: nat)
    requires UniqueKeys(rows) && Find(rows, key) == |rows| && size > 0
    ensures BeginOutcome(rows, limits, t, key, size).Reserved? <==>
            ChargedBytes(rows, None) + size <= limits.globalMaxBytes &&
                ChargedBytes(rows, Some(t)) + size <= limits.perBrandMaxBytes
  {
    UsageExcludes(rows, None, key);
    UsageExcludes(rows, Some(t), key);
  }

  lemma FindAtFront(rows: seq<ObjectRow>, key: string)
    requires rows != []
    ensures rows[0].key == key ==> Find(rows, key) == 0
    ensures rows[0].key != key && |rows| == 1 ==> Find(rows, key) == 1
  {
  }

  lemma UsageOfOne(r: ObjectRow, brand: Option<Tenant>, key: string)
    ensures Usage([r], brand, key) == if r.key == key then 0 else Charge(r, brand)
    ensures ChargedBytes([r], brand) == Charge(r, brand)
  {
    assert [r][..0] == [];
  }

  /** A put into a table of one row of the brand, within both limits. */
  lemma PutBesideOne(r: ObjectRow, uploading: set<string>, limits: Limits, key: string, size: nat)
    requires r.status != Stored && size > 0
    requires var total := size + (if r.key == key then 0 else Charge(r, None));
             total <= limits.globalMaxBytes && total <= limits.perBrandMaxBytes
    ensures StepPut(State([r], uploading), limits, r.tenant, key, size).rows ==
            if r.key == key then [r.(size := size, status := Pending)]
            else [r, ObjectRow(r.tenant, key, size, Pending)]
  {
    hide Find, Usage, ChargedBytes;
    FindAtFront([r], key);
    UsageOfOne(r, None, key);
    UsageOfOne(r, Some(r.tenant), key);
  }

  lemma FirstPut(limits: Limits, t: Tenant, key: string, size: nat)
    requires 0 < size <= limits.globalMaxBytes && size <= limits.perBrandMaxBytes
    ensures StepPut(State([], {}), limits, t, key, size).rows == [ObjectRow(t, key, size, Pending)]
  {
  }

  lemma SettleFront(r: ObjectRow, rest: seq<ObjectRow>, stored: bool)
    ensures Settle([r] + rest, r.key, stored) == [r.(status := if stored then Stored else Failed)] + rest
  {
    hide Find;
    FindAtFront([r] + rest, r.key);
  }

  lemma TwoCharges(a: ObjectRow, b: ObjectRow)
    ensures ChargedBytes([a] + [b], None) == Charge(a, None) + Charge(b, None)
  {
    AppendBytes([a], b, None);
    UsageOfOne(a, None, a.key);
  }

  /**
   * Without that discipline the ledger alone does not protect the quota: when two uploads of
   * one key overlap, the first failure frees the bytes, another key takes them, and the second
   * success charges the first key again.
   */
  lemma OverlappingPutsBreakTheQuota(t: Tenant, k: string, k': string)
    requires k != k'
    ensures var limits := Limits(10, 10);
            var s2 := StepPut(StepPut(State([], {}), limits, t, k, 10), limits, t, k, 10);
            var s4 := StepPut(Step(s2, limits, UploadFailed(k)), limits, t, k', 10);
            !WithinLimits(Step(s4, limits, Uploaded(k)).rows, limits)
  {
    hide Find, StepPut, Settle, ChargedBytes, Usage;
    var limits := Limits(10, 10);
    var ra, rb := ObjectRow(t, k, 10, Pending), ObjectRow(t, k', 10, Pending);
    var rf, rs := ra.(status := Failed), ra.(status := Stored);
    FirstPut(limits, t, k, 10);
    var s1 := StepPut(State([], {}), limits, t, k, 10);
    PutBesideOne(ra, s1.uploading, limits, k, 10);
    var s2 := StepPut(s1, limits, t, k, 10);
    SettleFront(ra, [], false);
    assert [ra] + [] == [ra] && [rf] + [] == [rf];
    var s3 := Step(s2, limits, UploadFailed(k));
    assert s3.rows == [rf];
    PutBesideOne(rf, s3.uploading, limits, k', 10);
    var s4 := StepPut(s3, limits, t, k', 10);
    assert s4.rows == [rf] + [rb];
    SettleFront(rf, [rb], true);
    TwoCharges(rs, rb);
  }
}
