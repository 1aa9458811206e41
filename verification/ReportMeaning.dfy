/**
 * What a saved report means for its run, said from the report alone: which reports are valid,
 * which tracks they speak about, what supports each track, and when the run ends complete.
 *
 * Tracks are numbered as in the source's list: identity and offers, competitors, SEO and content,
 * social, email and lifecycle, SMS, products and launches, customer, market and investor trends.
 */
module ReportMeaning {
  import opened Text
  import opened RuntimeValues
  import opened ResearchStatus
  import opened RunProgress

  // ----- Fields -----

  ghost predicate TextAt(v: Value, key: string, text: string) {
    v.Obj? && key in v.fields && v.fields[key].Str? && v.fields[key].text == text
  }

  ghost predicate RecordAt(v: Value, key: string) { v.Obj? && key in v.fields && v.fields[key].Obj? }

  ghost predicate ListAt(v: Value, key: string) { v.Obj? && key in v.fields && v.fields[key].Arr? }

  /** The list in the field has this non-blank string. */
  ghost predicate Lists(v: Value, key: string, text: string) {
    && ListAt(v, key) && !Blank(text)
    && exists i :: 0 <= i < |v.fields[key].items| && v.fields[key].items[i].Str? && v.fields[key].items[i].text == text
  }

  lemma TextFieldExactly(v: Value, key: string, text: string)
    ensures TextField(v, key) == Some(text) <==> TextAt(v, key, text)
  {
  }

  lemma {:induction false} StringsExactly(items: seq<Value>, text: string)
    ensures text in Strings(items) <==>
            !Blank(text) && exists i :: 0 <= i < |items| && items[i].Str? && items[i].text == text
  {
    hide Blank;
    if items != [] {
      var rest := items[1..];
      StringsExactly(rest, text);
      if i :| 0 <= i < |rest| && rest[i].Str? && rest[i].text == text { assert items[i + 1].text == text; }
      if i :| 0 <= i < |items| && items[i].Str? && items[i].text == text {
        if i > 0 { assert rest[i - 1].text == text; }
      }
    }
  }

  lemma StringListExactly(v: Value, key: string, text: string)
    ensures text in StringList(Field(v, key)) <==> Lists(v, key, text)
  {
    hide Blank, Strings;
    if ListAt(v, key) { StringsExactly(v.fields[key].items, text); }
  }

  // ----- What a report says -----

  /** Some string in the value, at any depth. */
  ghost predicate HasText(v: Value, text: string) {
    match v
    case Str(t, _) => t == text
    case Arr(items) => exists i :: 0 <= i < |items| && HasText(items[i], text)
    case Obj(fields) => exists key :: key in fields && HasText(fields[key], text)
    case _ => false
  }

  /** The value holds a non-blank string somewhere. */
  ghost predicate Says(v: Value) { exists text :: HasText(v, text) && !Blank(text) }

  lemma {:induction false} MeaningfulExactly(v: Value)
    ensures HasMeaningfulValue(v) <==> Says(v)
    decreases v
  {
    hide Blank;
    match v
    case Str(t, _) => assert HasText(v, t);
    case Arr(items) =>
      forall i | 0 <= i < |items| { MeaningfulExactly(items[i]); }
      if i :| 0 <= i < |items| && HasMeaningfulValue(items[i]) {
        var text :| HasText(items[i], text) && !Blank(text);
        assert HasText(v, text);
      }
      if text :| HasText(v, text) && !Blank(text) {
        var i :| 0 <= i < |items| && HasText(items[i], text);
        assert Says(items[i]);
      }
    case Obj(fields) =>
      forall key | key in fields { MeaningfulExactly(fields[key]); }
      if key :| key in fields && HasMeaningfulValue(fields[key]) {
        var text :| HasText(fields[key], text) && !Blank(text);
        assert HasText(v, text);
      }
      if text :| HasText(v, text) && !Blank(text) {
        var key :| key in fields && HasText(fields[key], text);
        assert Says(fields[key]);
      }
    case _ =>
  }

  ghost predicate ChannelSays(report: Report, key: string) {
    report.channelFindings.Obj? && key in report.channelFindings.fields && Says(report.channelFindings.fields[key])
  }

  /** The report says something about the track. */
  ghost predicate Speaks(report: Report, t: Track) {
    match t
    case 0 => Says(report.identity)
    case 1 => |report.competitorLandscape| > 0
    case 2 => ChannelSays(report, "seoAndContent")
    case 3 => ChannelSays(report, "social")
    case 4 => ChannelSays(report, "emailAndLifecycle")
    case 5 => ChannelSays(report, "sms")
    case 6 => ChannelSays(report, "productAndLaunches")
    case _ => |report.marketSignals| > 0 || |report.customerSignals| > 0 || |report.trendSignals| > 0
  }

  lemma SpeaksExactly(report: Report, t: Track)
    ensures Found(report, t) <==> Speaks(report, t)
  {
    hide HasMeaningfulValue, Says;
    MeaningfulExactly(report.identity);
    if report.channelFindings.Obj? {
      forall key | key in report.channelFindings.fields
        ensures HasMeaningfulValue(report.channelFindings.fields[key]) <==> Says(report.channelFindings.fields[key])
      {
        MeaningfulExactly(report.channelFindings.fields[key]);
      }
    }
  }

  // ----- What supports a track -----

  /** The kinds of source that count for the track; competitors cite their evidence themselves. */
  ghost predicate Counts(t: Track, sourceType: string) {
    match t
    case 0 => sourceType == "official_site" || sourceType == "press"
    case 1 => false
    case 2 => sourceType == "official_site" || sourceType == "search_result"
    case 3 => sourceType == "social_profile"
    case 4 => sourceType == "official_site" || sourceType == "competitor_site"
    case 5 => sourceType == "official_site" || sourceType == "competitor_site"
    case 6 => sourceType == "official_site" || sourceType == "press"
    case _ => sourceType == "market_report" || sourceType == "review" || sourceType == "press"
  }

  ghost predicate InLedger(report: Report, id: string) {
    exists i :: 0 <= i < |report.evidence| && report.evidence[i].id == id
  }

  /** The ledger item with this id is of a kind that counts for the track. */
  ghost predicate LedgerItem(report: Report, t: Track, id: string) {
    exists i :: 0 <= i < |report.evidence| && report.evidence[i].id == id && Counts(t, report.evidence[i].sourceType)
  }

  ghost predicate Claimed(competitors: seq<Value>, id: string) {
    exists k :: 0 <= k < |competitors| && Lists(competitors[k], "evidenceIds", id)
  }

  /** The evidence supports what the report says about the track. */
  ghost predicate Supports(report: Report, t: Track, id: string) {
    if t == 1 then Claimed(report.competitorLandscape, id) && InLedger(report, id)
    else Speaks(report, t) && LedgerItem(report, t, id)
  }

  ghost predicate Supported(report: Report, t: Track) { exists id :: Supports(report, t, id) }

  lemma {:induction false} IdsForExactly(evidence: seq<Evidence>, types: set<string>, id: string)
    ensures id in EvidenceIdsFor(evidence, types) <==>
            exists i :: 0 <= i < |evidence| && evidence[i].id == id && evidence[i].sourceType in types
  {
    if evidence != [] {
      var rest := evidence[1..];
      IdsForExactly(rest, types, id);
      if i :| 0 <= i < |rest| && rest[i].id == id && rest[i].sourceType in types { assert evidence[i + 1] == rest[i]; }
      if i :| 0 <= i < |evidence| && evidence[i].id == id && evidence[i].sourceType in types {
        if i > 0 { assert rest[i - 1] == evidence[i]; }
      }
    }
  }

  lemma {:induction false} ClaimedIdsExactly(competitors: seq<Value>, id: string)
    ensures id in ClaimedIds(competitors) <==> Claimed(competitors, id)
  {
    hide Lists, StringList;
    if competitors != [] {
      var rest := competitors[1..];
      ClaimedIdsExactly(rest, id);
      StringListExactly(competitors[0], "evidenceIds", id);
      if k :| 0 <= k < |rest| && Lists(rest[k], "evidenceIds", id) { assert competitors[k + 1] == rest[k]; }
      if k :| 0 <= k < |competitors| && Lists(competitors[k], "evidenceIds", id) {
        if k > 0 { assert rest[k - 1] == competitors[k]; }
      }
    }
  }

  lemma {:induction false} KnownIdsExactly(ids: seq<string>, evidence: seq<Evidence>, id: string)
    ensures id in KnownIds(ids, evidence) <==> id in ids && Known(evidence, id)
  {
    hide Known;
    if ids != [] {
      KnownIdsExactly(ids[1..], evidence, id);
      assert ids == [ids[0]] + ids[1..];
    }
  }

  lemma CitedExactly(report: Report, t: Track, id: string)
    ensures id in CitedIds(report, t) <==> Supports(report, t, id)
  {
    hide Found, Speaks, Claimed, ClaimedIds, KnownIds, EvidenceIdsFor;
    SpeaksExactly(report, t);
    ClaimedIdsExactly(report.competitorLandscape, id);
    KnownIdsExactly(ClaimedIds(report.competitorLandscape), report.evidence, id);
    IdsForExactly(report.evidence, SourceTypes(t), id);
    TypesCount(t);
  }

  lemma TypesCount(t: Track)
    ensures t != 1 ==> forall sourceType :: sourceType in SourceTypes(t) <==> Counts(t, sourceType)
  {
  }

  lemma {:induction false} ProvidersInExactly(evidence: seq<Evidence>, ids: seq<string>, p: string)
    ensures p in ProvidersIn(evidence, ids) <==>
            exists i :: 0 <= i < |evidence| && evidence[i].provider == p && evidence[i].id in ids
  {
    if evidence != [] {
      var rest := evidence[1..];
      ProvidersInExactly(rest, ids, p);
      if i :| 0 <= i < |rest| && rest[i].provider == p && rest[i].id in ids { assert evidence[i + 1] == rest[i]; }
      if i :| 0 <= i < |evidence| && evidence[i].provider == p && evidence[i].id in ids {
        if i > 0 { assert rest[i - 1] == evidence[i]; }
      }
    }
  }

  /**
   * The update of a track: not observable when the report says nothing about it, complete when
   * something in the ledger supports it, else partial. Its evidence ids are exactly the supporting
   * ones, its providers those of the ledger items with such an id, and it records gaps exactly
   * when it is not complete: the report's own, a stock phrase if it has none, or what is missing.
   */
  lemma UpdateExactly(report: Report, t: Track, id: string, provider: string)
    ensures var u := ReportTrackUpdates(report)[t];
            && u.track == t && u.error == None && u.evidenceCount == Some(|u.evidenceIds|)
            && u.status == (if !Speaks(report, t) then NotObservable
                            else if Supported(report, t) then TrackComplete else TrackPartial)
            && (id in u.evidenceIds <==> Supports(report, t, id))
            && (provider in u.providerUsage <==>
                  exists i :: 0 <= i < |report.evidence| && report.evidence[i].provider == provider
                              && report.evidence[i].id in u.evidenceIds)
            && (Speaks(report, t) && Supported(report, t) ==> u.providerGaps == [])
            && (!Speaks(report, t) && |report.gaps| > 0 ==> u.providerGaps == report.gaps)
            && (!Speaks(report, t) && |report.gaps| == 0 ==>
                  u.providerGaps == ["No source-backed observation was saved for this research track."])
            && (Speaks(report, t) && !Supported(report, t) ==> |u.providerGaps| == 1)
  {
    SpeaksExactly(report, t);
    var ids := CitedIds(report, t);
    ProvidersInExactly(report.evidence, ids, provider);
    CitedExactly(report, t, id);
    if ids != [] { CitedExactly(report, t, ids[0]); }
    hide Found, Speaks, Supports, CitedIds, ProvidersIn, Uncited;
    if x :| Supports(report, t, x) { CitedExactly(report, t, x); }
    assert ids != [] ==> ids[0] in ids;
  }

  /** Every track the report speaks about is supported. */
  ghost predicate WellSupported(report: Report) {
    forall t: Track :: Speaks(report, t) ==> Supported(report, t)
  }

  lemma NoPartialExactly(report: Report)
    ensures HasPartial(ReportTrackUpdates(report)) <==> !WellSupported(report)
  {
    hide Speaks, Supported, ReportTrackUpdates;
    var us := ReportTrackUpdates(report);
    forall t: Track
      ensures us[t].status == TrackPartial <==> Speaks(report, t) && !Supported(report, t)
    {
      UpdateExactly(report, t, "", "");
    }
    if t: Track :| Speaks(report, t) && !Supported(report, t) { assert us[t].status == TrackPartial; }
  }

  // ----- Which reports are valid -----

  /** A ledger item: an id and a URL with a web protocol. */
  ghost predicate GoodItem(env: Library, item: Value) {
    exists id, url ::
      && TextAt(item, "id", id) && TextAt(item, "url", url)
      && (env.urlProtocol(url) == Some("http:") || env.urlProtocol(url) == Some("https:"))
  }

  /** The item as the ledger has it. */
  ghost predicate Recorded(item: Value, e: Evidence) {
    && TextAt(item, "id", e.id) && TextAt(item, "url", e.url)
    && (TextAt(item, "sourceType", e.sourceType) ||
        (e.sourceType == "other" && forall s :: !TextAt(item, "sourceType", s)))
    && ((exists p :: TextAt(item, "provider", p) && !Blank(p) && e.provider == Trim(p)) ||
        (e.provider == "public-web" && forall p :: TextAt(item, "provider", p) ==> Blank(p)))
  }

  lemma ItemExactly(env: Library, item: Value)
    ensures GoodItem(env, item) <==>
            && TextField(item, "id").Some? && TextField(item, "url").Some?
            && (env.urlProtocol(TextField(item, "url").value) == Some("http:") ||
                env.urlProtocol(TextField(item, "url").value) == Some("https:"))
  {
    if TextField(item, "id").Some? && TextField(item, "url").Some? {
      var id, url := TextField(item, "id").value, TextField(item, "url").value;
      assert TextAt(item, "id", id) && TextAt(item, "url", url);
    }
  }

  lemma {:induction false} LedgerExactly(env: Library, items: seq<Value>)
    ensures ReadEvidence(env, items).Ledger? <==> forall i :: 0 <= i < |items| ==> GoodItem(env, items[i])
    ensures ReadEvidence(env, items).Ledger? ==>
              var evidence := ReadEvidence(env, items).evidence;
              |evidence| == |items| && forall i :: 0 <= i < |items| ==> Recorded(items[i], evidence[i])
  {
    hide GoodItem, Recorded;
    if items != [] {
      LedgerExactly(env, items[1..]);
      ItemExactly(env, items[0]);
      assert forall i :: 0 <= i < |items[1..]| ==> items[1..][i] == items[i + 1];
      assert items == [items[0]] + items[1..];
      if ReadEvidence(env, items).Ledger? { ItemRecorded(env, items); }
    }
  }

  lemma ItemRecorded(env: Library, items: seq<Value>)
    requires items != [] && ReadEvidence(env, items).Ledger?
    ensures ReadEvidence(env, items[1..]).Ledger?
    ensures var evidence := ReadEvidence(env, items).evidence;
            evidence != [] && evidence[1..] == ReadEvidence(env, items[1..]).evidence && Recorded(items[0], evidence[0])
  {
    hide Blank, Trim;
    var item := items[0];
    var provider := TextField(item, "provider");
    if provider.Some? { assert TextAt(item, "provider", provider.value); }
  }

  /** The report is for this brand. */
  ghost predicate AboutBrand(env: Library, value: Value, brandName: string) {
    && RecordAt(value, "query")
    && exists name :: TextAt(value.fields["query"], "brandName", name)
                      && env.lowerCase(Trim(name)) == env.lowerCase(Trim(brandName))
  }

  ghost predicate TrueAt(v: Value, key: string) { v.Obj? && key in v.fields && v.fields[key] == Bool(true) }

  ghost predicate DeclaresSafety(value: Value) {
    && RecordAt(value, "safety")
    && TrueAt(value.fields["safety"], "readOnly")
    && TrueAt(value.fields["safety"], "publicSourcesOnly")
    && TrueAt(value.fields["safety"], "unsupportedClaimsExcluded")
  }

  /** Every ledger item is good, and a report without any records a gap. */
  ghost predicate GoodLedger(env: Library, value: Value) {
    && ListAt(value, "evidence")
    && (forall i :: 0 <= i < |value.fields["evidence"].items| ==> GoodItem(env, value.fields["evidence"].items[i]))
    && (|value.fields["evidence"].items| > 0 || exists gap :: Lists(value, "gaps", gap))
  }

  ghost predicate ValidReport(env: Library, value: Value, brandName: string) {
    && TextAt(value, "version", "brand_research_v1")
    && AboutBrand(env, value, brandName)
    && RecordAt(value, "identity") && RecordAt(value, "channelFindings")
    && DeclaresSafety(value) && GoodLedger(env, value)
  }

  /** The same conditions as the validator reads them. */
  ghost predicate ReadsBrand(env: Library, value: Value, brandName: string) {
    && Field(value, "query").Some? && TextField(Field(value, "query").value, "brandName").Some?
    && env.lowerCase(Trim(TextField(Field(value, "query").value, "brandName").value)) == env.lowerCase(Trim(brandName))
  }

  ghost predicate ReadsSafety(value: Value) {
    var safety := RecordField(value, "safety");
    && safety.Some? && HasField(safety.value, "readOnly", Bool(true))
    && HasField(safety.value, "publicSourcesOnly", Bool(true))
    && HasField(safety.value, "unsupportedClaimsExcluded", Bool(true))
  }

  ghost predicate ReadsLedger(env: Library, value: Value) {
    && ListAt(value, "evidence")
    && ReadEvidence(env, value.fields["evidence"].items).Ledger?
    && (ReadEvidence(env, value.fields["evidence"].items).evidence != [] || StringList(Field(value, "gaps")) != [])
  }

  lemma ReadsHeader(env: Library, value: Value, brandName: string)
    ensures HeaderError(env, value, brandName).None? <==>
            && TextField(value, "version") == Some("brand_research_v1")
            && ReadsBrand(env, value, brandName)
            && RecordField(value, "identity").Some? && RecordField(value, "channelFindings").Some?
            && ReadsSafety(value)
  {
    hide TextField, RecordField, HasField, Trim, Field;
  }

  lemma ReadsAll(env: Library, value: Value, brandName: string)
    ensures ValidateReport(env, value, brandName).Valid? <==>
            && TextField(value, "version") == Some("brand_research_v1")
            && ReadsBrand(env, value, brandName)
            && RecordField(value, "identity").Some? && RecordField(value, "channelFindings").Some?
            && ReadsSafety(value) && ReadsLedger(env, value)
    ensures ValidateReport(env, value, brandName).Valid? ==>
              var report := ValidateReport(env, value, brandName).report;
              && report.identity == RecordField(value, "identity").value
              && report.channelFindings == RecordField(value, "channelFindings").value
              && report.evidence == ReadEvidence(env, value.fields["evidence"].items).evidence
  {
    ReadsHeader(env, value, brandName);
    hide HeaderError, ReadsBrand, ReadsSafety, TextField, RecordField, HasField, StringList, ReadEvidence, Records;
  }

  lemma BrandExactly(env: Library, value: Value, brandName: string)
    ensures AboutBrand(env, value, brandName) <==> ReadsBrand(env, value, brandName)
  {
    hide Trim;
    var query := Field(value, "query");
    if query.Some? && TextField(query.value, "brandName").Some? {
      assert TextAt(query.value, "brandName", TextField(query.value, "brandName").value);
    }
  }

  lemma SafetyExactly(value: Value)
    ensures DeclaresSafety(value) <==> ReadsSafety(value)
  {
  }

  lemma GoodLedgerExactly(env: Library, value: Value)
    ensures GoodLedger(env, value) <==> ReadsLedger(env, value)
    ensures ReadsLedger(env, value) ==>
              var items := value.fields["evidence"].items;
              var evidence := ReadEvidence(env, items).evidence;
              |evidence| == |items| && forall i :: 0 <= i < |items| ==> Recorded(items[i], evidence[i])
  {
    hide GoodItem, Recorded, Lists, StringList, ReadEvidence;
    GapExactly(value);
    if ListAt(value, "evidence") { LedgerExactly(env, value.fields["evidence"].items); }
  }

  lemma GapExactly(value: Value)
    ensures StringList(Field(value, "gaps")) != [] <==> exists gap :: Lists(value, "gaps", gap)
  {
    hide StringList, Lists;
    var gaps := StringList(Field(value, "gaps"));
    if gaps != [] {
      assert gaps[0] in gaps;
      StringListExactly(value, "gaps", gaps[0]);
    }
    if gap :| Lists(value, "gaps", gap) { StringListExactly(value, "gaps", gap); }
  }

  /**
   * A report is valid exactly when it is of the right version, about the run's brand, has its two
   * required sections, declares all three safety flags, and has a good ledger; it is then read
   * with those sections, and with one ledger entry for each item in order.
   */
  lemma ValidExactly(env: Library, value: Value, brandName: string)
    ensures ValidateReport(env, value, brandName).Valid? <==> ValidReport(env, value, brandName)
    ensures ValidateReport(env, value, brandName).Valid? ==>
              var report := ValidateReport(env, value, brandName).report;
              var items := value.fields["evidence"].items;
              && report.identity == value.fields["identity"]
              && report.channelFindings == value.fields["channelFindings"]
              && |report.evidence| == |items|
              && forall i :: 0 <= i < |items| ==> Recorded(items[i], report.evidence[i])
  {
    ReadsAll(env, value, brandName);
    BrandExactly(env, value, brandName);
    SafetyExactly(value);
    GoodLedgerExactly(env, value);
    TextFieldExactly(value, "version", "brand_research_v1");
    hide ValidateReport, AboutBrand, ReadsBrand, DeclaresSafety, ReadsSafety, GoodLedger, ReadsLedger, Recorded,
      ReadEvidence, TextField;
  }

  lemma {:induction false} RecordsExactly(items: seq<Value>, v: Value)
    ensures v in Records(items) <==> v in items && v.Obj?
  {
    if items != [] {
      RecordsExactly(items[1..], v);
      assert items == [items[0]] + items[1..];
    }
  }

  /** The other sections are the non-blank strings of their lists, and the records of the competitor list. */
  lemma SectionsExactly(env: Library, value: Value, brandName: string, text: string, competitor: Value)
    requires ValidateReport(env, value, brandName).Valid?
    ensures var report := ValidateReport(env, value, brandName).report;
            && (text in report.marketSignals <==> Lists(value, "marketSignals", text))
            && (text in report.customerSignals <==> Lists(value, "customerSignals", text))
            && (text in report.trendSignals <==> Lists(value, "trendSignals", text))
            && (text in report.gaps <==> Lists(value, "gaps", text))
            && (competitor in report.competitorLandscape <==>
                  ListAt(value, "competitorLandscape") && competitor.Obj?
                  && competitor in value.fields["competitorLandscape"].items)
  {
    StringListExactly(value, "marketSignals", text);
    StringListExactly(value, "customerSignals", text);
    StringListExactly(value, "trendSignals", text);
    StringListExactly(value, "gaps", text);
    if ListAt(value, "competitorLandscape") { RecordsExactly(value.fields["competitorLandscape"].items, competitor); }
    hide HeaderError, Lists, StringList, ReadEvidence, Records;
  }

  // ----- When the run ends complete -----

  /** The report carries the deep intelligence contract. */
  ghost predicate Deep(value: Value) {
    RecordAt(value, "intelligence") && TextAt(value.fields["intelligence"], "contractVersion", "brand_intelligence_v1")
  }

  /** The report is valid, and every track it speaks about is supported. */
  ghost predicate Convincing(env: Library, value: Value, brandName: string) {
    && ValidReport(env, value, brandName)
    && ValidateReport(env, value, brandName).Valid?
    && WellSupported(ValidateReport(env, value, brandName).report)
  }

  /**
   * From the report alone: while no other run of the brand is active, the run ends complete if and
   * only if the report is valid, the brain id is not blank, a deep report was accepted by the
   * quality check, and every track the report speaks about is supported; and partial otherwise.
   */
  lemma CompleteExactly(row: RunRow, env: Library, r: SavedResult, times: seq<Moment>)
    requires |times| >= 9
    ensures var w := Persist(row, env, r, times, false);
            && !w.threw
            && w.row.status ==
               if Convincing(env, r.report, row.brandName) && !Blank(r.brandBrainId)
                  && (Deep(r.report) ==> r.qualityAccepted == Some(true))
               then Complete else Partial
  {
    hide Persist, ValidateReport, ValidReport, WellSupported, HasPartial, ReportTrackUpdates, Blank, IsDeepReport, Deep,
      Recorded;
    PersistEnds(row, env, r, times, false);
    ValidExactly(env, r.report, row.brandName);
    DeepExactly(r.report);
    var validation := ValidateReport(env, r.report, row.brandName);
    if validation.Valid? { NoPartialExactly(validation.report); }
  }

  lemma DeepExactly(value: Value)
    ensures IsDeepReport(value) <==> Deep(value)
  {
    if RecordAt(value, "intelligence") {
      TextFieldExactly(value.fields["intelligence"], "contractVersion", "brand_intelligence_v1");
    }
  }
}
