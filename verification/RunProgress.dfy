/**
 * Progress of a brand research run: eight tracks, a run status derived from them, and the
 * persistence of a saved report track by track.
 */
module RunProgress {
  import opened Text
  import opened RuntimeValues
  import opened ResearchStatus

  /** A research track, by its position in the fixed list of eight. */
  type Track = t: int | 0 <= t < 8

  const IDENTITY_AND_OFFERS: Track := 0
  const COMPETITORS: Track := 1
  const SEO_AND_CONTENT: Track := 2
  const SOCIAL: Track := 3
  const EMAIL_AND_LIFECYCLE: Track := 4
  const SMS: Track := 5
  const PRODUCTS_AND_LAUNCHES: Track := 6
  const CUSTOMER_MARKET_INVESTOR_TRENDS: Track := 7

  function TrackName(t: Track): string {
    ["identity_and_offers", "competitors", "seo_and_content", "social", "email_and_lifecycle", "sms",
     "products_and_launches", "customer_market_investor_trends"][t]
  }

  datatype TrackState = TrackPending | TrackRunning | TrackComplete | TrackPartial | Unavailable | NotObservable

  datatype TrackProgress = TrackProgress(
    status: TrackState, evidenceCount: int, evidenceIds: seq<string>,
    providerUsage: seq<string>, providerGaps: seq<string>,
    startedAt: Option<int>, completedAt: Option<int>, error: Option<string>)

  const UNTOUCHED := TrackProgress(TrackPending, 0, [], [], [], None, None, None)

  /** One entry for each of the eight tracks. */
  type Progress = p: seq<TrackProgress> | |p| == 8 witness DEFAULT_PROGRESS

  const DEFAULT_PROGRESS: seq<TrackProgress> :=
    [UNTOUCHED, UNTOUCHED, UNTOUCHED, UNTOUCHED, UNTOUCHED, UNTOUCHED, UNTOUCHED, UNTOUCHED]

  /** Absent lists are empty ones: the source treats both alike. */
  datatype TrackUpdate = TrackUpdate(
    track: Track, status: TrackState, evidenceCount: Option<int>, evidenceIds: seq<string>,
    providerUsage: seq<string>, providerGaps: seq<string>, error: Option<string>)

  predicate IsTrackComplete(s: TrackState) { s == TrackComplete || s == Unavailable || s == NotObservable }

  // ----- Derived status and count -----

  function EvidenceSum(p: seq<TrackProgress>): int {
    if p == [] then 0 else EvidenceSum(p[..|p| - 1]) + p[|p| - 1].evidenceCount
  }

  ghost predicate AnyTrack(p: seq<TrackProgress>, s: TrackState) { exists t :: 0 <= t < |p| && p[t].status == s }

  /** Every track is complete, unavailable or not observable. */
  ghost predicate AllTracksDone(p: seq<TrackProgress>) {
    forall t :: 0 <= t < |p| ==>
      p[t].status == TrackComplete || p[t].status == Unavailable || p[t].status == NotObservable
  }

  /** The run status the tracks imply. */
  ghost function DerivedStatus(p: seq<TrackProgress>): RunStatus {
    if AnyTrack(p, TrackRunning) then Running
    else if AllTracksDone(p) then Complete
    else if AnyTrack(p, TrackPending) then Queued
    else Partial
  }

  /** `recomputeTrackCounts`. */
  method RecomputeTrackCounts(p: Progress) returns (evidenceCount: int, status: RunStatus)
    ensures evidenceCount == EvidenceSum(p)
    ensures status == DerivedStatus(p)
  {
    evidenceCount := 0;
    var running, hasPending, allDone := false, false, true;
    for i := 0 to 8
      invariant evidenceCount == EvidenceSum(p[..i])
      invariant running <==> AnyTrack(p[..i], TrackRunning)
      invariant hasPending <==> AnyTrack(p[..i], TrackPending)
      invariant allDone <==> AllTracksDone(p[..i])
    {
      assert p[..i + 1][..i] == p[..i] && p[..i + 1][i] == p[i];
      AnyTrackNext(p, i, TrackRunning);
      AnyTrackNext(p, i, TrackPending);
      hide AnyTrack;
      var value := p[i];
      evidenceCount := evidenceCount + value.evidenceCount;
      if value.status == TrackRunning { running := true; }
      if value.status == TrackPending { hasPending := true; }
      if !IsTrackComplete(value.status) { allDone := false; }
    }
    assert p[..8] == p;
    status := if running then Running else if allDone then Complete else if hasPending then Queued else Partial;
  }

  lemma AnyTrackNext(p: seq<TrackProgress>, i: nat, s: TrackState)
    requires i < |p|
    ensures AnyTrack(p[..i + 1], s) <==> AnyTrack(p[..i], s) || p[i].status == s
  {
    if AnyTrack(p[..i], s) {
      var t :| 0 <= t < |p[..i]| && p[..i][t].status == s;
      assert p[..i + 1][t].status == s;
    }
    if p[i].status == s { assert p[..i + 1][i].status == s; }
    if AnyTrack(p[..i + 1], s) {
      var t :| 0 <= t < |p[..i + 1]| && p[..i + 1][t].status == s;
      if t < i { assert p[..i][t].status == s; }
    }
  }

  // ----- Merging an update -----

  /** `Array.from(new Set(s))`: first occurrences, in order. */
  function Distinct(s: seq<string>): (r: seq<string>)
    ensures forall x :: x in r <==> x in s
  {
    if s == [] then []
    else
      var n := |s| - 1;
      var before := Distinct(s[..n]);
      assert s == s[..n] + [s[n]];
      if s[n] in before then before else before + [s[n]]
  }

  function Extended(current: seq<string>, extra: seq<string>): seq<string> {
    if extra == [] then current else Distinct(current + extra)
  }

  predicate Settled(s: TrackState) {
    s == TrackComplete || s == TrackPartial || s == Unavailable || s == NotObservable
  }

  function MergeTrack(c: TrackProgress, u: TrackUpdate, now: int): TrackProgress {
    TrackProgress(
      u.status,
      if u.evidenceCount.Some? then u.evidenceCount.value else c.evidenceCount,
      Extended(c.evidenceIds, u.evidenceIds),
      Extended(c.providerUsage, u.providerUsage),
      Extended(c.providerGaps, u.providerGaps),
      if u.status == TrackRunning && c.startedAt.None? then Some(now) else c.startedAt,
      if Settled(u.status) then Some(now) else c.completedAt,
      if u.error.Some? then u.error else c.error)
  }

  /** `mergeTrackProgress`. */
  function Merge(p: Progress, u: TrackUpdate, now: int): Progress { p[u.track := MergeTrack(p[u.track], u, now)] }

  /** What was recorded on a track is kept and what the update brings is added: nothing else. */
  lemma MergeIsUnion(c: TrackProgress, u: TrackUpdate, now: int, x: string)
    ensures x in MergeTrack(c, u, now).evidenceIds <==> x in c.evidenceIds || x in u.evidenceIds
    ensures x in MergeTrack(c, u, now).providerUsage <==> x in c.providerUsage || x in u.providerUsage
    ensures x in MergeTrack(c, u, now).providerGaps <==> x in c.providerGaps || x in u.providerGaps
  {
    assert x in c.evidenceIds + u.evidenceIds <==> x in c.evidenceIds || x in u.evidenceIds;
    assert x in c.providerUsage + u.providerUsage <==> x in c.providerUsage || x in u.providerUsage;
    assert x in c.providerGaps + u.providerGaps <==> x in c.providerGaps || x in u.providerGaps;
  }

  ghost predicate NoRepeats(s: seq<string>) { forall i, j :: 0 <= i < j < |s| ==> s[i] != s[j] }

  /** Merged lists never repeat an entry, and keep what was recorded in front, in its order. */
  lemma {:induction false} DistinctKeepsOrder(a: seq<string>, b: seq<string>)
    requires NoRepeats(a)
    ensures NoRepeats(Distinct(a + b)) && a <= Distinct(a + b)
  {
    if b != [] {
      var n := |b| - 1;
      assert (a + b)[..|a + b| - 1] == a + b[..n];
      DistinctKeepsOrder(a, b[..n]);
    } else if a != [] {
      var n := |a| - 1;
      assert a + b == a && a[..n] + [] == a[..n];
      DistinctKeepsOrder(a[..n], []);
      assert Distinct(a[..n]) == a[..n] by { DistinctStands(a[..n]); }
      assert a[n] !in a[..n];
    }
  }

  lemma {:induction false} DistinctStands(a: seq<string>)
    requires NoRepeats(a)
    ensures Distinct(a) == a
  {
    if a != [] {
      DistinctStands(a[..|a| - 1]);
      assert a[|a| - 1] !in a[..|a| - 1];
    }
  }

  function MergeAll(p: Progress, us: seq<TrackUpdate>, now: int): Progress {
    if us == [] then p else Merge(MergeAll(p, us[..|us| - 1], now), us[|us| - 1], now)
  }

  ghost predicate DistinctTracks(us: seq<TrackUpdate>) {
    forall i, j :: 0 <= i < j < |us| ==> us[i].track != us[j].track
  }

  /** Each track sees only its own update, once. */
  lemma {:induction false} MergeAllAt(p: Progress, us: seq<TrackUpdate>, now: int, t: Track)
    requires DistinctTracks(us)
    ensures forall i :: 0 <= i < |us| && us[i].track == t ==> MergeAll(p, us, now)[t] == MergeTrack(p[t], us[i], now)
    ensures (forall i :: 0 <= i < |us| ==> us[i].track != t) ==> MergeAll(p, us, now)[t] == p[t]
  {
    hide MergeTrack;
    if us != [] { MergeAllAt(p, us[..|us| - 1], now, t); }
  }

  /** Updates to distinct tracks commute: every permutation gives the same tracks, status and evidence count. */
  lemma UpdatesCommute(p: Progress, us: seq<TrackUpdate>, vs: seq<TrackUpdate>, now: int)
    requires DistinctTracks(us) && DistinctTracks(vs) && multiset(us) == multiset(vs)
    ensures MergeAll(p, us, now) == MergeAll(p, vs, now)
    ensures DerivedStatus(MergeAll(p, us, now)) == DerivedStatus(MergeAll(p, vs, now))
    ensures EvidenceSum(MergeAll(p, us, now)) == EvidenceSum(MergeAll(p, vs, now))
  {
    hide MergeAll, MergeTrack, DerivedStatus, EvidenceSum;
    var a, b := MergeAll(p, us, now), MergeAll(p, vs, now);
    forall t: Track ensures a[t] == b[t] {
      MergeAllAt(p, us, now, t);
      MergeAllAt(p, vs, now, t);
      if i :| 0 <= i < |us| && us[i].track == t {
        assert us[i] in multiset(us);
        assert us[i] in vs;
        var j :| 0 <= j < |vs| && vs[j] == us[i];
      } else if j :| 0 <= j < |vs| && vs[j].track == t {
        assert vs[j] in multiset(vs);
        assert vs[j] in us;
      }
    }
    assert a == b;
  }

  // ----- The run row -----

  /** The two clock readings of an update: one for the track, then one for the row. */
  datatype Moment = Moment(track: int, row: int)

  datatype RunRow = RunRow(
    brandName: string, status: RunStatus, tracks: Progress, evidenceCount: int,
    providerUsage: map<string, TrackState>, providerGaps: map<Track, seq<string>>,
    brandBrainId: Option<string>, error: Option<string>,
    startedAt: Option<int>, completedAt: Option<int>, failedAt: Option<int>, cancelledAt: Option<int>,
    elapsedMs: Option<int>, retryCount: nat)

  function Fresh(brandName: string): RunRow {
    RunRow(brandName, Queued, DEFAULT_PROGRESS, 0, map[], map[], None, None, None, None, None, None, None, 0)
  }

  function NoteProviders(usage: map<string, TrackState>, providers: seq<string>, s: TrackState)
    : map<string, TrackState>
  {
    if providers == [] then usage
    else NoteProviders(usage, providers[..|providers| - 1], s)[providers[|providers| - 1] := s]
  }

  /** The column that repeats the gaps of every track. */
  function GapsOf(p: Progress): map<Track, seq<string>> { map t: Track | 0 <= t < 8 :: p[t].providerGaps }

  /** The row `markBrandResearchRunProgress` wants to write: note that it does not look at the current status. */
  ghost function MarkProgress(row: RunRow, u: TrackUpdate, at: Moment): RunRow {
    var tracks := Merge(row.tracks, u, at.track);
    var status := DerivedStatus(tracks);
    row.(tracks := tracks,
         evidenceCount := EvidenceSum(tracks),
         providerUsage := NoteProviders(row.providerUsage, u.providerUsage, u.status),
         providerGaps := GapsOf(tracks),
         status := status,
         completedAt := if status == Complete then Some(at.row) else row.completedAt,
         failedAt := if status == Complete then None else row.failedAt,
         error := if u.error.Some? then u.error else row.error,
         elapsedMs := if status == Complete && row.startedAt.Some?
                      then Some(if at.row < row.startedAt.value then 0 else at.row - row.startedAt.value)
                      else row.elapsedMs)
  }

  /** A row as a write left it, and whether that write threw. */
  datatype Written = Written(row: RunRow, threw: bool)

  /**
   * The unique index over active runs of a brand: a write that would make a closed run active
   * is refused while another run of the brand is active.
   */
  predicate Clashes(row: RunRow, status: RunStatus, otherActive: bool) {
    otherActive && !Active(row.status) && Active(status)
  }

  function Write(row: RunRow, next: RunRow, otherActive: bool): Written {
    if Clashes(row, next.status, otherActive) then Written(row, true) else Written(next, false)
  }

  ghost function TryProgress(row: RunRow, u: TrackUpdate, at: Moment, otherActive: bool): Written {
    Write(row, MarkProgress(row, u, at), otherActive)
  }

  /** Updates one after the other, up to the first that throws. */
  ghost function TryAll(row: RunRow, us: seq<TrackUpdate>, times: seq<Moment>, otherActive: bool): Written
    requires |times| >= |us|
  {
    if us == [] then Written(row, false)
    else
      var before := TryAll(row, us[..|us| - 1], times, otherActive);
      if before.threw then before else TryProgress(before.row, us[|us| - 1], times[|us| - 1], otherActive)
  }

  predicate Retryable(s: RunStatus) { s == Failed || s == Cancelled || s == Partial }

  function Retry(row: RunRow): RunRow {
    if Retryable(row.status)
    then row.(status := Queued, brandBrainId := None, error := None,
              failedAt := None, startedAt := None, completedAt := None,
              tracks := DEFAULT_PROGRESS, evidenceCount := 0, providerUsage := map[], providerGaps := map[],
              retryCount := row.retryCount + 1)
    else row
  }

  function Cancel(row: RunRow, now: int): RunRow {
    if Active(row.status)
    then row.(status := Cancelled, cancelledAt := Some(now),
              error := if row.error.Some? then row.error else Some("Cancelled by user."))
    else row
  }

  function Fail(row: RunRow, message: string, now: int): RunRow {
    if Active(row.status) then row.(status := Failed, failedAt := Some(now), error := Some(message)) else row
  }

  function CompleteRun(row: RunRow, now: int): RunRow {
    if Active(row.status) then row.(status := Complete, completedAt := Some(now), error := None) else row
  }

  /** `setBrandResearchRunBrandBrain`. */
  function SetBrandBrain(row: RunRow, id: string): RunRow {
    if row.status == Running then row.(brandBrainId := Some(id)) else row
  }

  class ResearchRun {
    var row: RunRow

    constructor (brandName: string)
      ensures row == Fresh(brandName)
    {
      row := Fresh(brandName);
    }

    method MarkTrackProgress(u: TrackUpdate, at: Moment, otherActive: bool) returns (threw: bool)
      modifies this
      ensures Written(row, threw) == TryProgress(old(row), u, at, otherActive)
    {
      var tracks := Merge(row.tracks, u, at.track);
      var usage := row.providerUsage;
      for i := 0 to |u.providerUsage|
        invariant row == old(row)
        invariant usage == NoteProviders(row.providerUsage, u.providerUsage[..i], u.status)
      {
        assert u.providerUsage[..i + 1][..i] == u.providerUsage[..i];
        usage := usage[u.providerUsage[i] := u.status];
      }
      assert u.providerUsage[..|u.providerUsage|] == u.providerUsage;
      var evidenceCount, status := RecomputeTrackCounts(tracks);
      if Clashes(row, status, otherActive) { return true; }
      var elapsed := row.elapsedMs;
      if status == Complete && row.startedAt.Some? {
        elapsed := Some(if at.row < row.startedAt.value then 0 else at.row - row.startedAt.value);
      }
      row := row.(
        tracks := tracks, evidenceCount := evidenceCount, providerUsage := usage, providerGaps := GapsOf(tracks),
        status := status,
        completedAt := if status == Complete then Some(at.row) else row.completedAt,
        failedAt := if status == Complete then None else row.failedAt,
        error := if u.error.Some? then u.error else row.error,
        elapsedMs := elapsed);
      return false;
    }

    method ReleaseForRetry(otherActive: bool) returns (released: bool, threw: bool)
      modifies this
      ensures Written(row, threw) == Write(old(row), Retry(old(row)), otherActive)
      ensures released <==> !threw && Retryable(old(row).status)
    {
      if !Retryable(row.status) { return false, false; }
      if Clashes(row, Queued, otherActive) { return false, true; }
      row := row.(status := Queued, brandBrainId := None, error := None,
                  failedAt := None, startedAt := None, completedAt := None,
                  tracks := DEFAULT_PROGRESS, evidenceCount := 0, providerUsage := map[], providerGaps := map[],
                  retryCount := row.retryCount + 1);
      return true, false;
    }

    method MarkCancelled(now: int) returns (changed: bool)
      modifies this
      ensures row == Cancel(old(row), now)
      ensures changed <==> Active(old(row).status)
    {
      changed := Active(row.status);
      if changed {
        row := row.(status := Cancelled, cancelledAt := Some(now),
                    error := if row.error.Some? then row.error else Some("Cancelled by user."));
      }
    }

    method MarkFailed(message: string, now: int)
      modifies this
      ensures row == Fail(old(row), message, now)
    {
      if Active(row.status) { row := row.(status := Failed, failedAt := Some(now), error := Some(message)); }
    }

    method MarkCompleted(now: int)
      modifies this
      ensures row == CompleteRun(old(row), now)
    {
      if Active(row.status) { row := row.(status := Complete, completedAt := Some(now), error := None); }
    }

    /** `markPartialRun`, over the full track list. */
    method MarkPartialRun(detail: string, gaps: seq<string>, times: seq<Moment>, otherActive: bool)
      returns (threw: bool)
      requires |times| >= 8
      modifies this
      ensures Written(row, threw) == TryAll(old(row), PartialUpdates(detail, gaps), times, otherActive)
    {
      threw := MarkUpdates(PartialUpdates(detail, gaps), times, otherActive);
    }

    method MarkUpdates(updates: seq<TrackUpdate>, times: seq<Moment>, otherActive: bool) returns (threw: bool)
      requires |times| >= |updates|
      modifies this
      ensures Written(row, threw) == TryAll(old(row), updates, times, otherActive)
    {
      hide TryProgress;
      assert updates[..|updates|] == updates;
      for i := 0 to |updates|
        invariant Written(row, false) == TryAll(old(row), updates[..i], times, otherActive)
      {
        assert updates[..i + 1][..i] == updates[..i];
        threw := MarkTrackProgress(updates[i], times[i], otherActive);
        if threw {
          ThrowEnds(old(row), updates, times, otherActive, i + 1);
          return;
        }
      }
      return false;
    }

    /** `persistSavedReport`. */
    method PersistSavedReport(
      env: Library, brandBrainId: string, value: Value, qualityAccepted: Option<bool>, qualityFailures: seq<string>,
      times: seq<Moment>, otherActive: bool)
      returns (threw: bool)
      requires |times| >= 9
      modifies this
      ensures Written(row, threw) ==
              Persist(old(row), env, Result(brandBrainId, value, qualityAccepted, qualityFailures), times, otherActive)
    {
      hide ValidateReport, IsDeepReport, Blank, TryProgress, TryAll;
      var validation := ValidateReport(env, value, row.brandName);
      if validation.Invalid? {
        threw := MarkPartialRun(validation.error, [], times, otherActive);
        return;
      }
      if Blank(brandBrainId) {
        threw := MarkPartialRun(NO_BRAIN, [], times, otherActive);
        return;
      }
      row := SetBrandBrain(row, brandBrainId);
      threw := MarkUpdates(ReportTrackUpdates(validation.report), times, otherActive);
      if threw { return; }
      if IsDeepReport(value) && qualityAccepted != Some(true) {
        threw := MarkTrackProgress(MoreResearch(qualityFailures), times[8], otherActive);
      }
    }
  }

  /** After a throw nothing more is written. */
  lemma {:induction false} ThrowEnds(
    row: RunRow, us: seq<TrackUpdate>, times: seq<Moment>, otherActive: bool, n: nat)
    requires |times| >= |us| && n <= |us| && TryAll(row, us[..n], times, otherActive).threw
    ensures TryAll(row, us, times, otherActive) == TryAll(row, us[..n], times, otherActive)
  {
    hide TryProgress;
    if n == |us| {
      assert us[..n] == us;
    } else {
      assert us[..|us| - 1][..n] == us[..n];
      ThrowEnds(row, us[..|us| - 1], times, otherActive, n);
    }
  }

  // ----- Saved reports -----

  datatype Evidence = Evidence(id: string, url: string, sourceType: string, provider: string)

  datatype Report = Report(
    identity: Value, competitorLandscape: seq<Value>, channelFindings: Value,
    marketSignals: seq<string>, customerSignals: seq<string>, trendSignals: seq<string>,
    evidence: seq<Evidence>, gaps: seq<string>)

  /** Locale-dependent lower-casing and URL parsing are the platform's; `None` is an unparsable URL. */
  datatype Library = Library(lowerCase: string -> string, urlProtocol: string -> Option<string>)

  datatype Validation = Valid(report: Report) | Invalid(error: string)

  datatype Ledger = Ledger(evidence: seq<Evidence>) | Refused(error: string)

  function ReadEvidence(env: Library, items: seq<Value>): Ledger {
    if items == [] then Ledger([])
    else
      var item := items[0];
      match (TextField(item, "id"), TextField(item, "url"))
      case (Some(id), Some(url)) =>
        if env.urlProtocol(url).None? then Refused("Evidence sources must use valid public URLs.")
        else if env.urlProtocol(url).value != "http:" && env.urlProtocol(url).value != "https:" then
          Refused("Evidence sources must use public HTTP URLs.")
        else
          (match ReadEvidence(env, items[1..])
           case Refused(error) => Refused(error)
           case Ledger(rest) =>
             var provider := TextField(item, "provider");
             Ledger([Evidence(id, url,
                              if TextField(item, "sourceType").Some? then TextField(item, "sourceType").value
                                  else "other",
                              if provider.Some? && !Blank(provider.value) then Trim(provider.value)
                                  else "public-web")] + rest))
      case _ => Refused("Every saved evidence item needs an ID and source URL.")
  }

  function Records(items: seq<Value>): seq<Value> {
    if items == [] then [] else (if items[0].Obj? then [items[0]] else []) + Records(items[1..])
  }

  /** What is wrong with a report before its ledger is read, if anything. */
  function HeaderError(env: Library, value: Value, brandName: string): (error: Option<string>)
    ensures error.None? ==> RecordField(value, "identity").Some? && RecordField(value, "channelFindings").Some?
  {
    if TextField(value, "version") != Some("brand_research_v1") then
      Some("The assistant did not save a brand_research_v1 report.")
    else
      var query := Field(value, "query");
      if query.None? || TextField(query.value, "brandName").None? then
        Some("The saved report is missing its brand query.")
      else if env.lowerCase(Trim(TextField(query.value, "brandName").value)) != env.lowerCase(Trim(brandName)) then
        Some("The saved report does not match this brand research run.")
      else if RecordField(value, "identity").None? || RecordField(value, "channelFindings").None? then
        Some("The saved report is missing required research sections.")
      else
        var safety := RecordField(value, "safety");
        if safety.None? || !HasField(safety.value, "readOnly", Bool(true)) ||
           !HasField(safety.value, "publicSourcesOnly", Bool(true)) ||
           !HasField(safety.value, "unsupportedClaimsExcluded", Bool(true)) then
          Some("The saved report is missing its public-source safety declaration.")
        else None
  }

  function ReadSections(value: Value, identity: Value, channelFindings: Value, evidence: seq<Evidence>): Report {
    Report(
      identity,
      (match Field(value, "competitorLandscape")
       case Some(Arr(cs)) => Records(cs)
       case _ => []),
      channelFindings,
      StringList(Field(value, "marketSignals")), StringList(Field(value, "customerSignals")),
      StringList(Field(value, "trendSignals")), evidence, StringList(Field(value, "gaps")))
  }

  /** `validateReport`. */
  function ValidateReport(env: Library, value: Value, brandName: string): Validation {
    match HeaderError(env, value, brandName)
    case Some(error) => Invalid(error)
    case None =>
      match Field(value, "evidence")
      case Some(Arr(items)) =>
        (match ReadEvidence(env, items)
         case Refused(error) => Invalid(error)
         case Ledger(evidence) =>
           if evidence == [] && StringList(Field(value, "gaps")) == [] then
             Invalid("A report without evidence must explicitly record why each missing track was not observable.")
           else
             Valid(ReadSections(value, RecordField(value, "identity").value,
                                RecordField(value, "channelFindings").value, evidence)))
      case _ => Invalid("The saved report is missing its evidence ledger.")
  }

  predicate HasMeaningfulValue(v: Value) {
    match v
    case Str(text, _) => !Blank(text)
    case Arr(items) => exists i :: 0 <= i < |items| && HasMeaningfulValue(items[i])
    case Obj(fields) => exists key :: key in fields && HasMeaningfulValue(fields[key])
    case _ => false
  }

  predicate Meaningful(v: Option<Value>) { v.Some? && HasMeaningfulValue(v.value) }

  function EvidenceIdsFor(evidence: seq<Evidence>, sourceTypes: set<string>): seq<string> {
    if evidence == [] then []
    else
      var first := if evidence[0].sourceType in sourceTypes then [evidence[0].id] else [];
      first + EvidenceIdsFor(evidence[1..], sourceTypes)
  }

  function ProvidersFor(evidence: seq<Evidence>, ids: seq<string>): seq<string> { Distinct(ProvidersIn(evidence, ids)) }

  function ProvidersIn(evidence: seq<Evidence>, ids: seq<string>): seq<string> {
    if evidence == [] then []
    else (if evidence[0].id in ids then [evidence[0].provider] else []) + ProvidersIn(evidence[1..], ids)
  }

  predicate Known(evidence: seq<Evidence>, id: string) { exists i :: 0 <= i < |evidence| && evidence[i].id == id }

  /** Evidence ids claimed by the competitors, kept when the ledger knows them. */
  function KnownIds(ids: seq<string>, evidence: seq<Evidence>): seq<string> {
    if ids == [] then [] else (if Known(evidence, ids[0]) then [ids[0]] else []) + KnownIds(ids[1..], evidence)
  }

  function ClaimedIds(competitors: seq<Value>): seq<string> {
    if competitors == [] then [] else StringList(Field(competitors[0], "evidenceIds")) + ClaimedIds(competitors[1..])
  }

  function Observed(report: Report, track: Track, found: bool, ids: seq<string>, uncited: string): TrackUpdate {
    var sourceGaps := if report.gaps != [] then report.gaps
        else ["No source-backed observation was saved for this research track."];
    TrackUpdate(
      track,
      if !found then NotObservable else if ids != [] then TrackComplete else TrackPartial,
      Some(|ids|), ids, ProvidersFor(report.evidence, ids),
      if !found then sourceGaps else if ids != [] then [] else [uncited],
      None)
  }

  /** Whether the report says anything about the track. */
  predicate Found(report: Report, t: Track) {
    var channel := report.channelFindings;
    if t == IDENTITY_AND_OFFERS then HasMeaningfulValue(report.identity)
    else if t == COMPETITORS then report.competitorLandscape != []
    else if t == SEO_AND_CONTENT then Meaningful(Field(channel, "seoAndContent"))
    else if t == SOCIAL then Meaningful(Field(channel, "social"))
    else if t == EMAIL_AND_LIFECYCLE then Meaningful(Field(channel, "emailAndLifecycle"))
    else if t == SMS then Meaningful(Field(channel, "sms"))
    else if t == PRODUCTS_AND_LAUNCHES then Meaningful(Field(channel, "productAndLaunches"))
    else report.marketSignals != [] || report.customerSignals != [] || report.trendSignals != []
  }

  /** The kinds of source that count as evidence for the track. */
  function SourceTypes(t: Track): set<string> {
    if t == IDENTITY_AND_OFFERS || t == PRODUCTS_AND_LAUNCHES then {"official_site", "press"}
    else if t == SEO_AND_CONTENT then {"official_site", "search_result"}
    else if t == SOCIAL then {"social_profile"}
    else if t == EMAIL_AND_LIFECYCLE || t == SMS then {"official_site", "competitor_site"}
    else {"market_report", "review", "press"}
  }

  function CitedIds(report: Report, t: Track): seq<string> {
    if t == COMPETITORS then KnownIds(ClaimedIds(report.competitorLandscape), report.evidence)
    else if Found(report, t) then EvidenceIdsFor(report.evidence, SourceTypes(t))
    else []
  }

  function Uncited(t: Track): string {
    if t == COMPETITORS then "Competitors were named without valid evidence IDs."
    else "The " + TrackName(t) + " findings do not reference track-specific evidence."
  }

  /** `reportTrackUpdates`, as the updates the caller makes of them. */
  function ReportTrackUpdates(report: Report): (us: seq<TrackUpdate>)
    ensures |us| == 8
  {
    seq(8, t requires 0 <= t < 8 => Observed(report, t, Found(report, t), CitedIds(report, t), Uncited(t)))
  }

  lemma ReportUpdatesCover(report: Report)
    ensures CoversTracks(ReportTrackUpdates(report))
    ensures forall t :: 0 <= t < 8 ==> Settled(ReportTrackUpdates(report)[t].status)
  {
    hide Found, CitedIds, Uncited, ProvidersFor;
  }

  function PartialUpdates(detail: string, gaps: seq<string>): seq<TrackUpdate> {
    seq(8, t requires 0 <= t < 8 =>
      TrackUpdate(t, if t == 0 then TrackPartial else NotObservable, Some(0), [], [], [detail] + gaps,
                  if t == 0 then Some(detail) else None))
  }

  const NO_BRAIN := "The assistant reported success without a persisted Brand Brain identifier."

  predicate IsDeepReport(value: Value) {
    RecordField(value, "intelligence").Some? &&
        TextField(RecordField(value, "intelligence").value, "contractVersion") == Some("brand_intelligence_v1")
  }

  function Spaced(parts: seq<string>): string { Join(parts, ' ') }

  /** The closing update of a deep report that was not accepted. */
  function MoreResearch(qualityFailures: seq<string>): TrackUpdate {
    var detail := if qualityFailures != [] then "More research is needed: " + Spaced(qualityFailures)
                  else "More research is needed before this report can be called complete.";
    TrackUpdate(IDENTITY_AND_OFFERS, TrackPartial, None, [], [], [detail], Some(detail))
  }

  /** What the runtime reports as saved. */
  datatype SavedResult = Result(
    brandBrainId: string, report: Value, qualityAccepted: Option<bool>, qualityFailures: seq<string>)

  predicate NeedsMoreResearch(r: SavedResult) { IsDeepReport(r.report) && r.qualityAccepted != Some(true) }

  ghost function Persist(row: RunRow, env: Library, r: SavedResult, times: seq<Moment>, otherActive: bool): Written
    requires |times| >= 9
  {
    match ValidateReport(env, r.report, row.brandName)
    case Invalid(error) => TryAll(row, PartialUpdates(error, []), times, otherActive)
    case Valid(report) =>
      if Blank(r.brandBrainId) then TryAll(row, PartialUpdates(NO_BRAIN, []), times, otherActive)
      else
        var marked := TryAll(SetBrandBrain(row, r.brandBrainId), ReportTrackUpdates(report), times, otherActive);
        if marked.threw || !NeedsMoreResearch(r) then marked
        else TryProgress(marked.row, MoreResearch(r.qualityFailures), times[8], otherActive)
  }

  // ----- How persisting ends -----

  /** The tracks after a sequence of updates, made at the given times. */
  function MergeTimed(p: Progress, us: seq<TrackUpdate>, times: seq<Moment>): Progress
    requires |times| >= |us|
  {
    if us == [] then p else Merge(MergeTimed(p, us[..|us| - 1], times), us[|us| - 1], times[|us| - 1].track)
  }

  /** While no other run is active nothing throws, and the tracks are those of all the updates. */
  lemma {:induction false} FreeUpdates(row: RunRow, us: seq<TrackUpdate>, times: seq<Moment>)
    requires |times| >= |us|
    ensures var w := TryAll(row, us, times, false);
            && !w.threw && w.row.tracks == MergeTimed(row.tracks, us, times)
            && (us != [] ==> w.row.status == DerivedStatus(w.row.tracks))
  {
    hide DerivedStatus, EvidenceSum, NoteProviders, Merge, GapsOf;
    if us != [] { FreeUpdates(row, us[..|us| - 1], times); }
  }

  /** Update `k` is the last on the track of which `f` holds. */
  ghost predicate LastOn(us: seq<TrackUpdate>, t: Track, k: nat, f: TrackUpdate -> bool) {
    && k < |us| && us[k].track == t && f(us[k])
    && forall j :: k < j < |us| && us[j].track == t ==> !f(us[j])
  }

  /** Update `k` is the first on the track that marks it running. */
  ghost predicate FirstRunning(us: seq<TrackUpdate>, t: Track, k: nat) {
    && k < |us| && us[k].track == t && us[k].status == TrackRunning
    && forall j :: 0 <= j < k && us[j].track == t ==> us[j].status != TrackRunning
  }

  predicate EndsTrack(u: TrackUpdate) {
    u.status == TrackComplete || u.status == TrackPartial || u.status == Unavailable || u.status == NotObservable
  }

  predicate GivesCount(u: TrackUpdate) { u.evidenceCount.Some? }

  predicate GivesError(u: TrackUpdate) { u.error.Some? }

  predicate AnyUpdate(u: TrackUpdate) { true }

  /**
   * After any updates, a track has the status of its last one, the count and the error of the last
   * that gave one, was completed at the last that ended it, and was started at the first that
   * marked it running unless it had been started before.
   */
  lemma {:induction false} TrackHistory(p: Progress, us: seq<TrackUpdate>, times: seq<Moment>, t: Track, k: nat)
    requires |times| >= |us| && k < |us|
    ensures var track := MergeTimed(p, us, times)[t];
            && (LastOn(us, t, k, AnyUpdate) ==> track.status == us[k].status)
            && (LastOn(us, t, k, GivesCount) ==> Some(track.evidenceCount) == us[k].evidenceCount)
            && (LastOn(us, t, k, GivesError) ==> track.error == us[k].error)
            && (LastOn(us, t, k, EndsTrack) ==> track.completedAt == Some(times[k].track))
            && (FirstRunning(us, t, k) && p[t].startedAt.None? ==> track.startedAt == Some(times[k].track))
            && (p[t].startedAt.Some? ==> track.startedAt == p[t].startedAt)
  {
    hide Extended;
    var n := |us| - 1;
    if k < n {
      TrackHistory(p, us[..n], times, t, k);
      assert forall f: TrackUpdate -> bool :: LastOn(us, t, k, f) ==> LastOn(us[..n], t, k, f) by {
        forall f: TrackUpdate -> bool | LastOn(us, t, k, f) ensures LastOn(us[..n], t, k, f) {
          forall j | k < j < n && us[..n][j].track == t ensures !f(us[..n][j]) { assert us[j] == us[..n][j]; }
        }
      }
      assert FirstRunning(us, t, k) ==> FirstRunning(us[..n], t, k);
    } else {
      NotStarted(p, us[..n], times, t);
    }
  }

  /** Until an update marks it running, a track keeps its start. */
  lemma {:induction false} NotStarted(p: Progress, us: seq<TrackUpdate>, times: seq<Moment>, t: Track)
    requires |times| >= |us|
    ensures (forall j :: 0 <= j < |us| && us[j].track == t ==> us[j].status != TrackRunning) || p[t].startedAt.Some? ==>
              MergeTimed(p, us, times)[t].startedAt == p[t].startedAt
  {
    hide Extended;
    if us != [] {
      var n := |us| - 1;
      NotStarted(p, us[..n], times, t);
      assert forall j :: 0 <= j < n ==> us[..n][j] == us[j];
    }
  }

  /** One update per track, in the order of the list. */
  ghost predicate CoversTracks(us: seq<TrackUpdate>) { |us| == 8 && forall t :: 0 <= t < 8 ==> us[t].track == t }

  /** The tracks reached so far have their update's status, the others the one they had. */
  lemma {:induction false} PrefixStatuses(p: Progress, us: seq<TrackUpdate>, times: seq<Moment>, n: nat)
    requires CoversTracks(us) && |times| >= 8 && n <= 8
    ensures forall t :: 0 <= t < 8 ==>
              MergeTimed(p, us[..n], times)[t].status == if t < n then us[t].status else p[t].status
    decreases n
  {
    if n > 0 {
      assert us[..n][..n - 1] == us[..n - 1];
      PrefixStatuses(p, us, times, n - 1);
    }
  }

  ghost predicate HasPartial(us: seq<TrackUpdate>) { exists i :: 0 <= i < |us| && us[i].status == TrackPartial }

  lemma DerivedFromUpdates(p: Progress, us: seq<TrackUpdate>)
    requires |us| == 8 && forall t :: 0 <= t < 8 ==> p[t].status == us[t].status && Settled(us[t].status)
    ensures DerivedStatus(p) == if HasPartial(us) then Partial else Complete
  {
    if HasPartial(us) {
      var i :| 0 <= i < |us| && us[i].status == TrackPartial;
      assert !IsTrackComplete(p[i].status);
    }
  }

  /** One settled update per track leaves the run complete, or partial when some update is. */
  lemma CoveredStatus(row: RunRow, us: seq<TrackUpdate>, times: seq<Moment>)
    requires CoversTracks(us) && |times| >= 8
    requires forall t :: 0 <= t < 8 ==> Settled(us[t].status)
    ensures var w := TryAll(row, us, times, false);
            && !w.threw && w.row.status == (if HasPartial(us) then Partial else Complete)
            && forall t :: 0 <= t < 8 ==> Settled(w.row.tracks[t].status)
  {
    hide TryAll, MergeTimed;
    FreeUpdates(row, us, times);
    PrefixStatuses(row.tracks, us, times, 8);
    assert us[..8] == us;
    DerivedFromUpdates(MergeTimed(row.tracks, us, times), us);
  }

  lemma MarkPartialTrack(row: RunRow, u: TrackUpdate, at: Moment)
    requires u.status == TrackPartial && forall t :: 0 <= t < 8 ==> Settled(row.tracks[t].status)
    ensures MarkProgress(row, u, at).status == Partial
  {
    var p := Merge(row.tracks, u, at.track);
    assert !IsTrackComplete(p[u.track].status);
    assert forall t :: 0 <= t < 8 ==> p[t].status != TrackRunning && p[t].status != TrackPending;
  }

  /** Every track after the first is done. */
  ghost predicate OthersDone(p: Progress) { forall t :: 1 <= t < 8 ==> IsTrackComplete(p[t].status) }

  /** A closed run of a brand with another active run takes an update exactly when that leaves all tracks done. */
  lemma ClosedUpdate(row: RunRow, u: TrackUpdate, at: Moment)
    requires !Active(row.status)
    ensures var w := TryProgress(row, u, at, true);
            if AllTracksDone(Merge(row.tracks, u, at.track))
            then !w.threw && w.row.status == Complete && w.row.tracks == Merge(row.tracks, u, at.track)
            else w == Written(row, true)
  {
    hide EvidenceSum, NoteProviders, GapsOf, Merge;
  }

  /**
   * How far the updates of such a run get: up to the first partial one, and nowhere unless the
   * other tracks are done.
   */
  lemma {:induction false} ClosedUpdates(row: RunRow, us: seq<TrackUpdate>, times: seq<Moment>, n: nat)
    requires !Active(row.status) && CoversTracks(us) && |times| >= 8 && n <= 8
    requires forall t :: 0 <= t < 8 ==> Settled(us[t].status)
    ensures var w := TryAll(row, us[..n], times, true);
            && (n > 0 ==> (w.threw <==> !OthersDone(row.tracks) || HasPartial(us[..n])))
            && (n > 0 && !OthersDone(row.tracks) ==> w.row == row)
            && (!w.threw ==> w.row.tracks == MergeTimed(row.tracks, us[..n], times))
            && (if w.threw || n == 0 then w.row.status == row.status || w.row.status == Complete
                else w.row.status == Complete)
    decreases n
  {
    hide TryProgress, Merge, OthersDone, HasPartial;
    if n == 0 {
      assert us[..0] == [];
    } else {
      assert us[..n][..n - 1] == us[..n - 1] && us[..n][n - 1] == us[n - 1];
      ClosedUpdates(row, us, times, n - 1);
      PartialPrefix(us, n);
      var before := TryAll(row, us[..n - 1], times, true);
      if !before.threw {
        ClosedUpdate(before.row, us[n - 1], times[n - 1]);
        DoneAfter(row.tracks, us, times, n);
      }
    }
  }

  lemma PartialPrefix(us: seq<TrackUpdate>, n: nat)
    requires 0 < n <= |us|
    ensures HasPartial(us[..n]) <==> HasPartial(us[..n - 1]) || us[n - 1].status == TrackPartial
    ensures !HasPartial(us[..0])
  {
    assert forall i :: 0 <= i < n - 1 ==> us[..n][i] == us[..n - 1][i];
    assert us[..n][n - 1] == us[n - 1];
    if HasPartial(us[..n - 1]) {
      var i :| 0 <= i < n - 1 && us[..n - 1][i].status == TrackPartial;
      assert us[..n][i].status == TrackPartial;
    }
  }

  /**
   * After `n` settled updates all tracks are done exactly when none was partial and the tracks not
   * reached were done.
   */
  lemma DoneAfter(p: Progress, us: seq<TrackUpdate>, times: seq<Moment>, n: nat)
    requires CoversTracks(us) && |times| >= 8 && 0 < n <= 8
    requires forall t :: 0 <= t < 8 ==> Settled(us[t].status)
    ensures OthersDone(p) && !HasPartial(us[..n]) ==> AllTracksDone(MergeTimed(p, us[..n], times))
    ensures HasPartial(us[..n]) || (n == 1 && !OthersDone(p)) ==> !AllTracksDone(MergeTimed(p, us[..n], times))
  {
    PrefixStatuses(p, us, times, n);
    hide MergeTimed;
    var q := MergeTimed(p, us[..n], times);
    if HasPartial(us[..n]) {
      var i :| 0 <= i < n && us[..n][i].status == TrackPartial;
      assert !IsTrackComplete(q[i].status);
    } else {
      forall t | 0 <= t < n ensures IsTrackComplete(q[t].status) { assert us[..n][t] == us[t]; }
    }
    if n == 1 && !OthersDone(p) {
      var t :| 1 <= t < 8 && !IsTrackComplete(p[t].status);
      assert !IsTrackComplete(q[t].status);
    }
  }

  /** A valid report with a brain id, no partial track, and either not deep or accepted by the quality check. */
  ghost predicate Accepted(row: RunRow, env: Library, r: SavedResult) {
    var validation := ValidateReport(env, r.report, row.brandName);
    && validation.Valid? && !Blank(r.brandBrainId)
    && !HasPartial(ReportTrackUpdates(validation.report))
    && !NeedsMoreResearch(r)
  }

  /**
   * While no other run of the brand is active, persisting a saved result from any state of the
   * run never throws and ends in `complete` or `partial`: `complete` exactly for an accepted
   * result. A closed run of a brand with another active run is brought no further than
   * `complete`: persisting throws unless the result is accepted and all tracks but the first
   * were done already, and it writes nothing if they were not.
   */
  lemma PersistEnds(row: RunRow, env: Library, r: SavedResult, times: seq<Moment>, otherActive: bool)
    requires |times| >= 9
    ensures var w := Persist(row, env, r, times, otherActive);
            && (!otherActive ==> !w.threw && w.row.status == if Accepted(row, env, r) then Complete else Partial)
            && (otherActive && !Active(row.status) ==>
                  && (w.threw <==> !Accepted(row, env, r) || !OthersDone(row.tracks))
                  && (if w.threw then w.row.status == row.status || w.row.status == Complete
                      else w.row.status == Complete)
                  && (!OthersDone(row.tracks) ==> w.row == row))
  {
    hide TryAll, MarkProgress, ValidateReport, NeedsMoreResearch, ReportTrackUpdates, HasPartial, Blank, MoreResearch,
      PartialUpdates, OthersDone;
    var validation := ValidateReport(env, r.report, row.brandName);
    if validation.Invalid? {
      PartialStatus(row, validation.error, times);
    } else if Blank(r.brandBrainId) {
      PartialStatus(row, NO_BRAIN, times);
    } else {
      ReportStatus(SetBrandBrain(row, r.brandBrainId), validation.report, r.qualityFailures, times);
      if !Active(row.status) { ClosedReportStatus(row, validation.report, r.qualityFailures, times); }
    }
  }

  lemma ReportStatus(row: RunRow, report: Report, qualityFailures: seq<string>, times: seq<Moment>)
    requires |times| >= 9
    ensures var w := TryAll(row, ReportTrackUpdates(report), times, false);
            && !w.threw && w.row.status == (if HasPartial(ReportTrackUpdates(report)) then Partial else Complete)
            && MarkProgress(w.row, MoreResearch(qualityFailures), times[8]).status == Partial
  {
    hide TryAll, MarkProgress, ReportTrackUpdates, HasPartial;
    var us := ReportTrackUpdates(report);
    ReportUpdatesCover(report);
    CoveredStatus(row, us, times);
    MarkPartialTrack(TryAll(row, us, times, false).row, MoreResearch(qualityFailures), times[8]);
  }

  lemma ClosedReportStatus(row: RunRow, report: Report, qualityFailures: seq<string>, times: seq<Moment>)
    requires |times| >= 9 && !Active(row.status)
    ensures var w := TryAll(row, ReportTrackUpdates(report), times, true);
            && (w.threw <==> !OthersDone(row.tracks) || HasPartial(ReportTrackUpdates(report)))
            && (!OthersDone(row.tracks) ==> w.row == row)
            && (w.row.status == row.status || w.row.status == Complete)
            && (!w.threw ==> w.row.status == Complete
                             && MarkProgress(w.row, MoreResearch(qualityFailures), times[8]).status == Partial)
  {
    hide TryAll, MarkProgress, ReportTrackUpdates, HasPartial, MergeTimed, OthersDone;
    var us := ReportTrackUpdates(report);
    ReportUpdatesCover(report);
    assert us[..8] == us;
    ClosedUpdates(row, us, times, 8);
    var w := TryAll(row, us, times, true);
    if !w.threw {
      PrefixStatuses(row.tracks, us, times, 8);
      MarkPartialTrack(w.row, MoreResearch(qualityFailures), times[8]);
    }
  }

  lemma PartialStatus(row: RunRow, detail: string, times: seq<Moment>)
    requires |times| >= 8
    ensures var w := TryAll(row, PartialUpdates(detail, []), times, false); !w.threw && w.row.status == Partial
    ensures !Active(row.status) ==> TryAll(row, PartialUpdates(detail, []), times, true) == Written(row, true)
  {
    hide TryAll;
    var us := PartialUpdates(detail, []);
    assert us[0].status == TrackPartial;
    CoveredStatus(row, us, times);
    if !Active(row.status) { FirstUpdateThrows(row, us, times); }
  }

  /**
   * A run marked partial for a reason: its first track is partial, the others are not observable,
   * no evidence is counted, and the reason is the run's error and a gap of every track, with the
   * gaps that came with it.
   */
  lemma PartialRunRecords(row: RunRow, detail: string, gaps: seq<string>, times: seq<Moment>, t: Track, gap: string)
    requires |times| >= 8
    ensures var w := TryAll(row, PartialUpdates(detail, gaps), times, false);
            && !w.threw && w.row.status == Partial && w.row.error == Some(detail)
            && w.row.tracks[t].status == (if t == 0 then TrackPartial else NotObservable)
            && w.row.tracks[t].evidenceCount == 0
            && w.row.tracks[t].completedAt == Some(times[t].track)
            && (gap in w.row.tracks[t].providerGaps <==>
                  gap in row.tracks[t].providerGaps || gap == detail || gap in gaps)
  {
    var us := PartialUpdates(detail, gaps);
    FreeUpdates(row, us, times);
    LastError(row, us, times);
    MergedGaps(row.tracks, us, times, t, gap);
    assert LastOn(us, t, t, AnyUpdate) && LastOn(us, t, t, GivesCount) && LastOn(us, t, t, EndsTrack);
    TrackHistory(row.tracks, us, times, t, t);
    assert us[0].status == TrackPartial;
    CoveredStatus(row, us, times);
    hide TryAll, MergeTimed;
    assert us[t].providerGaps == [detail] + gaps;
  }

  lemma {:induction false} MergedGaps(p: Progress, us: seq<TrackUpdate>, times: seq<Moment>, t: Track, gap: string)
    requires |times| >= |us|
    ensures gap in MergeTimed(p, us, times)[t].providerGaps <==>
            gap in p[t].providerGaps || exists k :: 0 <= k < |us| && us[k].track == t && gap in us[k].providerGaps
  {
    if us != [] {
      var n := |us| - 1;
      MergedGaps(p, us[..n], times, t, gap);
      var mid := MergeTimed(p, us[..n], times);
      MergeIsUnion(mid[us[n].track], us[n], times[n].track, gap);
      hide MergeTrack;
      if k :| 0 <= k < n && us[..n][k].track == t && gap in us[..n][k].providerGaps { assert us[k] == us[..n][k]; }
      if k :| 0 <= k < |us| && us[k].track == t && gap in us[k].providerGaps {
        if k < n { assert us[..n][k] == us[k]; }
      }
    }
  }

  /** The run's error is the last one an update gave. */
  lemma {:induction false} LastError(row: RunRow, us: seq<TrackUpdate>, times: seq<Moment>)
    requires |times| >= |us| && us != [] && us[0].error.Some?
    requires forall k :: 0 < k < |us| ==> us[k].error.None?
    ensures TryAll(row, us, times, false).row.error == us[0].error
  {
    hide DerivedStatus, EvidenceSum, NoteProviders, Merge, GapsOf;
    var n := |us| - 1;
    if n > 0 {
      LastError(row, us[..n], times);
    } else {
      assert us[..0] == [];
    }
  }

  /** Persisting a valid report of a running run records the brain id as it was given. */
  lemma BrainRecorded(row: RunRow, env: Library, r: SavedResult, times: seq<Moment>)
    requires |times| >= 9 && row.status == Running
    ensures var w := Persist(row, env, r, times, false);
            w.row.brandBrainId ==
            if ValidateReport(env, r.report, row.brandName).Valid? && !Blank(r.brandBrainId) then Some(r.brandBrainId)
            else row.brandBrainId
  {
    hide ValidateReport, Blank, ReportTrackUpdates, TryAll, NeedsMoreResearch, DerivedStatus, EvidenceSum,
      NoteProviders, Merge, GapsOf;
    var validation := ValidateReport(env, r.report, row.brandName);
    if validation.Invalid? {
      BrainKept(row, PartialUpdates(validation.error, []), times);
    } else {
      BrainKept(row, PartialUpdates(NO_BRAIN, []), times);
      BrainKept(SetBrandBrain(row, r.brandBrainId), ReportTrackUpdates(validation.report), times);
    }
  }

  lemma {:induction false} BrainKept(row: RunRow, us: seq<TrackUpdate>, times: seq<Moment>)
    requires |times| >= |us|
    ensures TryAll(row, us, times, false).row.brandBrainId == row.brandBrainId
  {
    hide DerivedStatus, EvidenceSum, NoteProviders, Merge, GapsOf;
    if us != [] { BrainKept(row, us[..|us| - 1], times); }
  }

  lemma FirstUpdateThrows(row: RunRow, us: seq<TrackUpdate>, times: seq<Moment>)
    requires !Active(row.status) && us != [] && us[0].status == TrackPartial && |times| >= |us|
    ensures TryAll(row, us, times, true) == Written(row, true)
  {
    hide TryProgress;
    assert us[..1][..0] == [] && us[..1][0] == us[0];
    ClosedUpdate(row, us[0], times[0]);
    assert !IsTrackComplete(Merge(row.tracks, us[0], times[0].track)[us[0].track].status);
    ThrowEnds(row, us, times, true, 1);
  }

  // ----- Ending and starting over -----

  datatype Event =
    | Progressed(update: TrackUpdate, at: Moment)
    | Retried
    | CancelledAt(now: int)
    | FailedAt(message: string, now: int)
    | CompletedAt(now: int)
    | ClaimedAt(now: int)
    | BrainSet(id: string)

  /** One write to the row; `otherActive` says whether another run of the brand is active then. */
  ghost function Apply(row: RunRow, e: Event, otherActive: bool): RunRow {
    match e
    case Progressed(u, at) => TryProgress(row, u, at, otherActive).row
    case Retried => Write(row, Retry(row), otherActive).row
    case CancelledAt(now) => Cancel(row, now)
    case FailedAt(message, now) => Fail(row, message, now)
    case CompletedAt(now) => CompleteRun(row, now)
    case ClaimedAt(now) =>
      if row.status == Queued || row.status == Running
      then row.(status := Running, startedAt := if row.startedAt.Some? then row.startedAt else Some(now))
      else row
    case BrainSet(id) => SetBrandBrain(row, id)
  }

  datatype Moved = Moved(event: Event, otherActive: bool)

  ghost function ApplyAll(row: RunRow, moves: seq<Moved>): RunRow {
    if moves == [] then row
    else
      var last := moves[|moves| - 1];
      Apply(ApplyAll(row, moves[..|moves| - 1]), last.event, last.otherActive)
  }

  /** A cancellation, a failure or a completion. */
  predicate Ending(e: Event) { e.CancelledAt? || e.FailedAt? || e.CompletedAt? }

  function EndedAs(e: Event): RunStatus
    requires Ending(e)
  {
    if e.CancelledAt? then Cancelled else if e.FailedAt? then Failed else Complete
  }

  /** Everything the research produced. */
  ghost predicate SameResearch(a: RunRow, b: RunRow) {
    && a.brandName == b.brandName && a.tracks == b.tracks && a.evidenceCount == b.evidenceCount
    && a.providerUsage == b.providerUsage && a.providerGaps == b.providerGaps && a.brandBrainId == b.brandBrainId
    && a.startedAt == b.startedAt && a.elapsedMs == b.elapsedMs && a.retryCount == b.retryCount
  }

  /**
   * Of any number of cancellations, failures and completions of an active run the first one
   * counts: it sets the status and its own timestamp and keeps all research, and those after
   * it change nothing. None of them ever changes a closed run.
   */
  lemma {:induction false} FirstEndingStands(row: RunRow, moves: seq<Moved>)
    requires forall i :: 0 <= i < |moves| ==> Ending(moves[i].event)
    ensures row.status == Complete || row.status == Failed || row.status == Cancelled ==> ApplyAll(row, moves) == row
    ensures (row.status == Queued || row.status == Running || row.status == Partial) && moves != [] ==>
              var end := ApplyAll(row, moves);
              var e := moves[0].event;
              && end == ApplyAll(row, moves[..1])
              && end.status == EndedAs(e) && SameResearch(end, row)
              && end.cancelledAt == (if e.CancelledAt? then Some(e.now) else row.cancelledAt)
              && end.failedAt == (if e.FailedAt? then Some(e.now) else row.failedAt)
              && end.completedAt == (if e.CompletedAt? then Some(e.now) else row.completedAt)
              && (end.error.None? <==> e.CompletedAt?)
              && (e.FailedAt? ==> end.error == Some(e.message))
              && (e.CancelledAt? && row.error.Some? ==> end.error == row.error)
  {
    if |moves| == 1 {
      assert moves[..1] == moves && moves[..0] == [];
    } else if |moves| > 1 {
      var n := |moves| - 1;
      assert moves[..n][..1] == moves[..1] && moves[..n][0] == moves[0];
      FirstEndingStands(row, moves[..n]);
    }
  }

  /** The columns a retry does not reset. */
  function Forget(row: RunRow): RunRow { row.(cancelledAt := None, elapsedMs := None, retryCount := 0) }

  lemma ApplyForgets(a: RunRow, b: RunRow, e: Event, otherActive: bool)
    requires Forget(a) == Forget(b)
    ensures Forget(Apply(a, e, otherActive)) == Forget(Apply(b, e, otherActive))
  {
    hide EvidenceSum, DerivedStatus, NoteProviders, Merge, GapsOf;
    assert a == b.(cancelledAt := a.cancelledAt, elapsedMs := a.elapsedMs, retryCount := a.retryCount);
  }

  lemma {:induction false} ApplyAllForgets(a: RunRow, b: RunRow, moves: seq<Moved>)
    requires Forget(a) == Forget(b)
    ensures Forget(ApplyAll(a, moves)) == Forget(ApplyAll(b, moves))
  {
    hide Apply, Forget;
    if moves != [] {
      var n := |moves| - 1;
      ApplyAllForgets(a, b, moves[..n]);
      ApplyForgets(ApplyAll(a, moves[..n]), ApplyAll(b, moves[..n]), moves[n].event, moves[n].otherActive);
    }
  }

  /**
   * A retry succeeds exactly for a failed or cancelled run of a brand with no other active run,
   * or for a partial run, and then starts over: whatever happens next, the run fares as a new
   * run of the brand would, except for the cancellation time, the elapsed time and the retry
   * count, which it carries on.
   */
  lemma RetryStartsOver(row: RunRow, otherActive: bool, moves: seq<Moved>)
    ensures var w := Write(row, Retry(row), otherActive);
            && (w.row != row <==>
                  row.status == Partial || ((row.status == Failed || row.status == Cancelled) && !otherActive))
            && (w.threw <==> otherActive && (row.status == Failed || row.status == Cancelled))
            && (w.row != row ==>
                  && w.row.retryCount == row.retryCount + 1
                  && w.row.cancelledAt == row.cancelledAt && w.row.elapsedMs == row.elapsedMs
                  && Forget(ApplyAll(w.row, moves)) == Forget(ApplyAll(Fresh(row.brandName), moves)))
  {
    hide ApplyAll;
    var w := Write(row, Retry(row), otherActive);
    if w.row != row { ApplyAllForgets(w.row, Fresh(row.brandName), moves); }
  }

  // ----- Evidence -----

  lemma {:induction false} EvidenceOfUntouched(p: seq<TrackProgress>)
    requires forall t :: 0 <= t < |p| ==> p[t] == UNTOUCHED
    ensures EvidenceSum(p) == 0
  {
    if p != [] { EvidenceOfUntouched(p[..|p| - 1]); }
  }

  /** The columns derived from the tracks agree with them; the gaps column is empty until the first update. */
  ghost predicate Balanced(row: RunRow) {
    && row.evidenceCount == EvidenceSum(row.tracks)
    && ((forall t: Track :: t in row.providerGaps && row.providerGaps[t] == row.tracks[t].providerGaps) ||
        (row.providerGaps == map[] && row.tracks == DEFAULT_PROGRESS))
  }

  lemma ApplyBalanced(row: RunRow, e: Event, otherActive: bool)
    requires Balanced(row)
    ensures Balanced(Apply(row, e, otherActive))
  {
    EvidenceOfUntouched(DEFAULT_PROGRESS);
    hide EvidenceSum, DerivedStatus, NoteProviders, Merge;
  }

  /**
   * Through creation, progress, retry, cancel, fail, complete and claim, the run's count is the
   * sum over its tracks and its gaps column repeats theirs.
   */
  lemma {:induction false} EvidenceCountIsSum(brandName: string, moves: seq<Moved>)
    ensures Balanced(ApplyAll(Fresh(brandName), moves))
  {
    if moves == [] {
      EvidenceOfUntouched(DEFAULT_PROGRESS);
    } else {
      hide Apply, Balanced;
      var n := |moves| - 1;
      EvidenceCountIsSum(brandName, moves[..n]);
      ApplyBalanced(ApplyAll(Fresh(brandName), moves[..n]), moves[n].event, moves[n].otherActive);
    }
  }

  lemma {:induction false} SourceIdsKnown(evidence: seq<Evidence>, sourceTypes: set<string>, id: string)
    requires id in EvidenceIdsFor(evidence, sourceTypes)
    ensures Known(evidence, id)
  {
    if evidence[0].id != id {
      SourceIdsKnown(evidence[1..], sourceTypes, id);
      var i :| 0 <= i < |evidence[1..]| && evidence[1..][i].id == id;
      assert evidence[i + 1].id == id;
    }
  }

  lemma {:induction false} KnownIdsKnown(ids: seq<string>, evidence: seq<Evidence>, id: string)
    requires id in KnownIds(ids, evidence)
    ensures Known(evidence, id)
  {
    if !(Known(evidence, ids[0]) && ids[0] == id) { KnownIdsKnown(ids[1..], evidence, id); }
  }

  /** Every evidence id a saved report attaches to a track is in that report's ledger, and the count is their number. */
  lemma UpdatesCiteTheLedger(report: Report, t: Track, id: string)
    ensures id in ReportTrackUpdates(report)[t].evidenceIds ==> Known(report.evidence, id)
    ensures ReportTrackUpdates(report)[t].evidenceCount == Some(|ReportTrackUpdates(report)[t].evidenceIds|)
  {
    hide EvidenceIdsFor, KnownIds, ProvidersFor, Found, ClaimedIds, Known, Uncited, SourceTypes;
    if id in CitedIds(report, t) {
      if t == COMPETITORS {
        KnownIdsKnown(ClaimedIds(report.competitorLandscape), report.evidence, id);
      } else {
        SourceIdsKnown(report.evidence, SourceTypes(t), id);
      }
    }
  }

  /** So the ids on a track after any number of the updates were there before or are in the ledger. */
  lemma {:induction false} TracksCiteTheLedger(
    p: Progress, report: Report, times: seq<Moment>, n: nat, t: Track, id: string)
    requires n <= 8 && |times| >= 8
    requires id in MergeTimed(p, ReportTrackUpdates(report)[..n], times)[t].evidenceIds
    ensures id in p[t].evidenceIds || Known(report.evidence, id)
    decreases n
  {
    hide Known, ReportTrackUpdates;
    var us := ReportTrackUpdates(report);
    if n > 0 {
      assert us[..n][..n - 1] == us[..n - 1];
      UpdatesCiteTheLedger(report, n - 1, id);
      if id in MergeTimed(p, us[..n - 1], times)[t].evidenceIds {
        TracksCiteTheLedger(p, report, times, n - 1, t, id);
      }
    }
  }

  lemma {:induction false} UncitedMergesKeepIds(p: Progress, us: seq<TrackUpdate>, times: seq<Moment>, t: Track)
    requires |times| >= |us| && forall i :: 0 <= i < |us| ==> us[i].evidenceIds == []
    ensures MergeTimed(p, us, times)[t].evidenceIds == p[t].evidenceIds
  {
    if us != [] { UncitedMergesKeepIds(p, us[..|us| - 1], times, t); }
  }

  /** How many of the updates were written before one threw, if one did. */
  lemma {:induction false} WrittenPrefix(row: RunRow, us: seq<TrackUpdate>, times: seq<Moment>, otherActive: bool)
    returns (n: nat)
    requires |times| >= |us|
    ensures n <= |us|
    ensures TryAll(row, us, times, otherActive).row.tracks == MergeTimed(row.tracks, us[..n], times)
  {
    hide DerivedStatus, EvidenceSum, NoteProviders, Merge, GapsOf;
    n := |us|;
    assert us[..n] == us;
    if us != [] {
      n := WrittenPrefix(row, us[..|us| - 1], times, otherActive);
      assert us[..|us| - 1][..n] == us[..n];
      if !TryAll(row, us, times, otherActive).threw {
        AllWritten(row, us, times, otherActive);
        n := |us|;
      }
    }
  }

  /** When nothing threw, every update was written. */
  lemma {:induction false} AllWritten(row: RunRow, us: seq<TrackUpdate>, times: seq<Moment>, otherActive: bool)
    requires |times| >= |us| && !TryAll(row, us, times, otherActive).threw
    ensures TryAll(row, us, times, otherActive).row.tracks == MergeTimed(row.tracks, us, times)
  {
    hide DerivedStatus, EvidenceSum, NoteProviders, Merge, GapsOf;
    if us != [] { AllWritten(row, us[..|us| - 1], times, otherActive); }
  }

  /** Persisting adds no evidence id from outside the report's ledger, and none at all for a refused report. */
  lemma PersistCitesTheLedger(
    row: RunRow, env: Library, r: SavedResult, times: seq<Moment>, otherActive: bool, t: Track, id: string)
    requires |times| >= 9
    requires id in Persist(row, env, r, times, otherActive).row.tracks[t].evidenceIds
    ensures var validation := ValidateReport(env, r.report, row.brandName);
            || id in row.tracks[t].evidenceIds
            || (validation.Valid? && !Blank(r.brandBrainId) && Known(validation.report.evidence, id))
  {
    hide TryAll, MergeTimed, ValidateReport, IsDeepReport, ReportTrackUpdates, Blank, Known, DerivedStatus, EvidenceSum,
      NoteProviders, GapsOf;
    var validation := ValidateReport(env, r.report, row.brandName);
    if validation.Invalid? || Blank(r.brandBrainId) {
      var us := PartialUpdates(if validation.Invalid? then validation.error else NO_BRAIN, []);
      var n := WrittenPrefix(row, us, times, otherActive);
      UncitedMergesKeepIds(row.tracks, us[..n], times, t);
    } else {
      var start := SetBrandBrain(row, r.brandBrainId);
      var n := WrittenPrefix(start, ReportTrackUpdates(validation.report), times, otherActive);
      TracksCiteTheLedger(row.tracks, validation.report, times, n, t, id);
    }
  }
}
