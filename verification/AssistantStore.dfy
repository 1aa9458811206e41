/**
 * Default markers of the assistant store: the migration that leaves every user one default
 * assistant and every owner one default organisation, and the upserts that keep it so.
 *
 * Ids and timestamps are integers, ordered as SQLite orders the text columns.
 */
module AssistantStore {
  import opened Text

  /** A row of `assistants`, or of `organizations` (where `orgId` is the row's own id). */
  datatype Row = Row(id: int, userId: int, orgId: int, isDefault: bool, createdAt: int)

  // ----- Choosing -----

  /** `ORDER BY is_default DESC, created_at, id`: `a` comes strictly before `b`. */
  predicate Beats(a: Row, b: Row) {
    || (a.isDefault && !b.isDefault)
    || (a.isDefault == b.isDefault && (a.createdAt < b.createdAt || (a.createdAt == b.createdAt && a.id < b.id)))
  }

  /** Index of the first row of the user in that order. */
  function BestIndex(rows: seq<Row>, userId: int): (r: Option<nat>)
    ensures r.Some? ==> r.value < |rows| && rows[r.value].userId == userId
    ensures r.None? ==> forall i :: 0 <= i < |rows| ==> rows[i].userId != userId
  {
    if rows == [] then None
    else
      var n := |rows| - 1;
      var best := BestIndex(rows[..n], userId);
      if rows[n].userId != userId then best
      else if best.None? || Beats(rows[n], rows[best.value]) then Some(n)
      else best
  }

  /** `SELECT candidate.id ... LIMIT 1`. */
  function Winner(rows: seq<Row>, userId: int): Option<int> {
    match BestIndex(rows, userId)
    case None => None
    case Some(i) => Some(rows[i].id)
  }

  /** The organisation of the user's default assistant, when the user owns it: the joined subquery. */
  function SelectedOrg(assistants: seq<Row>, organizations: seq<Row>, userId: int): Option<int> {
    if assistants == [] then None
    else
      var a := assistants[0];
      if a.userId == userId && a.isDefault && Owns(organizations, a.orgId, userId) then Some(a.orgId)
      else SelectedOrg(assistants[1..], organizations, userId)
  }

  predicate Owns(organizations: seq<Row>, orgId: int, userId: int) {
    exists i :: 0 <= i < |organizations| && organizations[i].id == orgId && organizations[i].userId == userId
  }

  /** `COALESCE(selected, best candidate)` of the `organization_defaults` table. */
  function OrgChoice(assistants: seq<Row>, organizations: seq<Row>, userId: int): Option<int> {
    match SelectedOrg(assistants, organizations, userId)
    case Some(id) => Some(id)
    case None => Winner(organizations, userId)
  }

  // ----- The update, row by row -----

  /** Which id gets the marker: a choice fixed in advance for the user, or else the table's winner. */
  function Choice(fixed: int -> Option<int>, rows: seq<Row>, userId: int): Option<int> {
    match fixed(userId)
    case Some(id) => Some(id)
    case None => Winner(rows, userId)
  }

  /** The new value of row `i`, its subquery reading the table as it stands. */
  function MarkRow(fixed: int -> Option<int>, rows: seq<Row>, i: nat): seq<Row>
    requires i < |rows|
  {
    rows[i := rows[i].(isDefault := Choice(fixed, rows, rows[i].userId) == Some(rows[i].id))]
  }

  function MarkInOrder(fixed: int -> Option<int>, rows: seq<Row>, order: seq<nat>): (r: seq<Row>)
    requires forall k :: 0 <= k < |order| ==> order[k] < |rows|
    ensures |r| == |rows|
    decreases |order|
  {
    if order == [] then rows
    else MarkRow(fixed, MarkInOrder(fixed, rows, order[..|order| - 1]), order[|order| - 1])
  }

  /** The update as if every subquery read the table before any row changed. */
  function MarkAtOnce(fixed: int -> Option<int>, rows: seq<Row>): (r: seq<Row>)
    ensures |r| == |rows|
    ensures forall i :: 0 <= i < |rows| ==>
            r[i] == rows[i].(isDefault := Choice(fixed, rows, rows[i].userId) == Some(rows[i].id))
  {
    seq(|rows|, i requires 0 <= i < |rows| =>
      rows[i].(isDefault := Choice(fixed, rows, rows[i].userId) == Some(rows[i].id)))
  }

  /** No assistant is chosen in advance. */
  function Nobody(userId: int): Option<int> { None }

  /** `id` is the primary key. */
  ghost predicate UniqueIds(rows: seq<Row>) {
    forall i, j :: 0 <= i < j < |rows| ==> rows[i].id != rows[j].id
  }

  /** A scan of the table: every row is visited. */
  ghost predicate Scan(rows: seq<Row>, order: seq<nat>) {
    && (forall k :: 0 <= k < |order| ==> order[k] < |rows|)
    && (forall i :: 0 <= i < |rows| ==> i in order)
  }

  // ----- The store -----

  class Store {
    var assistants: seq<Row>
    var organizations: seq<Row>

    constructor (assistants: seq<Row>, organizations: seq<Row>)
      ensures this.assistants == assistants && this.organizations == organizations
    {
      this.assistants, this.organizations := assistants, organizations;
    }

    /** The two updates of the migration, each visiting its table in the given order. */
    method MigrateDefaultMarkers(assistantOrder: seq<nat>, organizationOrder: seq<nat>)
      requires UniqueIds(assistants) && UniqueIds(organizations)
      requires Scan(assistants, assistantOrder) && Scan(organizations, organizationOrder)
      modifies this
      ensures assistants == MigratedAssistants(old(assistants))
      ensures organizations == MigratedOrganizations(old(assistants), old(organizations))
    {
      for k := 0 to |assistantOrder|
        invariant organizations == old(organizations)
        invariant assistants == MarkInOrder(Nobody, old(assistants), assistantOrder[..k])
      {
        assert assistantOrder[..k + 1][..k] == assistantOrder[..k];
        var i := assistantOrder[k];
        var chosen := Winner(assistants, assistants[i].userId);
        assistants := assistants[i := assistants[i].(isDefault := chosen == Some(assistants[i].id))];
      }
      assert assistantOrder[..|assistantOrder|] == assistantOrder;
      AnyOrderIsAtOnce(Nobody, old(assistants), assistantOrder);

      ghost var fixed := (u: int) => SelectedOrg(MigratedAssistants(old(assistants)), old(organizations), u);
      for k := 0 to |organizationOrder|
        invariant assistants == MigratedAssistants(old(assistants))
        invariant organizations == MarkInOrder(fixed, old(organizations), organizationOrder[..k])
      {
        assert organizationOrder[..k + 1][..k] == organizationOrder[..k];
        var i := organizationOrder[k];
        OnlyMarkersChange(fixed, old(organizations), organizationOrder[..k]);
        SelectionIgnoresMarkers(assistants, organizations, old(organizations), organizations[i].userId);
        var chosen := OrgChoice(assistants, organizations, organizations[i].userId);
        organizations := organizations[i := organizations[i].(isDefault := chosen == Some(organizations[i].id))];
      }
      assert organizationOrder[..|organizationOrder|] == organizationOrder;
      AnyOrderIsAtOnce(fixed, old(organizations), organizationOrder);
    }

    /** `INSERT ... ON CONFLICT(user_id) WHERE is_default = 1 DO NOTHING`, then the default row. */
    method GetOrCreateOrganization(userId: int, newId: int, now: int) returns (row: Row)
      requires OneDefaultEach(organizations)
      requires forall i :: 0 <= i < |organizations| ==> organizations[i].id != newId
      modifies this`organizations
      ensures OneDefaultEach(organizations)
      ensures row in organizations && row.userId == userId && row.isDefault
      ensures organizations == if NoDefault(old(organizations), userId) then old(organizations) + [row]
              else old(organizations)
      ensures NoDefault(old(organizations), userId) ==> row == Row(newId, userId, newId, true, now)
      ensures organizations == WithOrganization(old(organizations), userId, newId, now)
    {
      var i := DefaultIndex(organizations, userId);
      if i < |organizations| { return organizations[i]; }
      row := Row(newId, userId, newId, true, now);
      organizations := organizations + [row];
    }

    /** The same for assistants, in the user's default organisation; each of the two upserts reads the clock. */
    method GetOrCreateAssistant(userId: int, newOrgId: int, newId: int, orgNow: int, now: int) returns (row: Row)
      requires OneDefaultEach(organizations) && OneDefaultEach(assistants)
      requires forall i :: 0 <= i < |organizations| ==> organizations[i].id != newOrgId
      modifies this
      ensures OneDefaultEach(organizations) && OneDefaultEach(assistants)
      ensures row in assistants && row.userId == userId && row.isDefault
      ensures organizations == if NoDefault(old(organizations), userId)
              then old(organizations) + [Row(newOrgId, userId, newOrgId, true, orgNow)] else old(organizations)
      ensures assistants == if NoDefault(old(assistants), userId) then old(assistants) + [row] else old(assistants)
      ensures NoDefault(old(assistants), userId) ==>
                row == Row(newId, userId, row.orgId, true, now) && DefaultOf(organizations, userId, row.orgId)
      ensures Tables(assistants, organizations) ==
              Serve(old(Tables(assistants, organizations)), AssistantAsked(userId, newOrgId, newId, orgNow, now))
    {
      var organization := GetOrCreateOrganization(userId, newOrgId, orgNow);
      var i := DefaultIndex(assistants, userId);
      if i < |assistants| { return assistants[i]; }
      row := Row(newId, userId, organization.id, true, now);
      assistants := assistants + [row];
    }
  }

  /** The partial unique index: at most one default per user. */
  ghost predicate OneDefaultEach(rows: seq<Row>) {
    forall i, j :: 0 <= i < j < |rows| && rows[i].isDefault && rows[j].isDefault ==> rows[i].userId != rows[j].userId
  }

  ghost predicate NoDefault(rows: seq<Row>, userId: int) {
    forall i :: 0 <= i < |rows| && rows[i].userId == userId ==> !rows[i].isDefault
  }

  /** The user's default row has this id. */
  ghost predicate DefaultOf(rows: seq<Row>, userId: int, id: int) {
    exists row :: row in rows && row.userId == userId && row.isDefault && row.id == id
  }

  function DefaultIndex(rows: seq<Row>, userId: int): (i: nat)
    ensures i <= |rows|
    ensures i < |rows| ==> rows[i].userId == userId && rows[i].isDefault
    ensures i == |rows| ==> NoDefault(rows, userId)
  {
    if rows == [] then 0
    else if rows[0].userId == userId && rows[0].isDefault then 0
    else 1 + DefaultIndex(rows[1..], userId)
  }

  ghost function MigratedAssistants(assistants: seq<Row>): seq<Row> { MarkAtOnce(Nobody, assistants) }

  ghost function MigratedOrganizations(assistants: seq<Row>, organizations: seq<Row>): seq<Row> {
    MarkAtOnce((u: int) => SelectedOrg(MigratedAssistants(assistants), organizations, u), organizations)
  }

  // ----- Row order does not matter -----

  /** Row `i` comes before every other row of its user. */
  ghost predicate Tops(rows: seq<Row>, i: nat) {
    i < |rows| && forall j :: 0 <= j < |rows| && j != i && rows[j].userId == rows[i].userId ==> Beats(rows[i], rows[j])
  }

  lemma {:induction false} BestTops(rows: seq<Row>, userId: int)
    requires UniqueIds(rows) && BestIndex(rows, userId).Some?
    ensures Tops(rows, BestIndex(rows, userId).value)
  {
    var n := |rows| - 1;
    var best := BestIndex(rows[..n], userId);
    if best.Some? {
      BestTops(rows[..n], userId);
      forall j | 0 <= j < n && j != best.value && rows[j].userId == userId ensures Beats(rows[best.value], rows[j]) {
        assert rows[..n][j].userId == rows[..n][best.value].userId;
      }
    }
  }

  lemma TopIsWinner(rows: seq<Row>, i: nat)
    requires UniqueIds(rows) && Tops(rows, i)
    ensures Winner(rows, rows[i].userId) == Some(rows[i].id)
  {
    var best := BestIndex(rows, rows[i].userId);
    BestTops(rows, rows[i].userId);
    if best.value != i { assert Beats(rows[i], rows[best.value]) && Beats(rows[best.value], rows[i]); }
  }

  /** Same rows but for markers, and every marker is either untouched or final. */
  ghost predicate Between(rows: seq<Row>, mid: seq<Row>, fixed: int -> Option<int>) {
    && |mid| == |rows|
    && forall i :: 0 <= i < |rows| ==> mid[i] == rows[i] || mid[i] == MarkAtOnce(fixed, rows)[i]
  }

  /**
   * The partly updated table elects the same winners: updating can only raise the winner's
   * marker and only lower the others'.
   */
  lemma WinnerStands(fixed: int -> Option<int>, rows: seq<Row>, mid: seq<Row>, userId: int)
    requires UniqueIds(rows) && Between(rows, mid, fixed) && fixed(userId).None?
    ensures UniqueIds(mid)
    ensures Winner(mid, userId) == Winner(rows, userId)
  {
    var best := BestIndex(rows, userId);
    if best.Some? {
      var w := best.value;
      BestTops(rows, userId);
      forall j | 0 <= j < |mid| && j != w && mid[j].userId == mid[w].userId ensures Beats(mid[w], mid[j]) {
        assert Beats(rows[w], rows[j]) && rows[j].id != rows[w].id;
      }
      assert Tops(mid, w);
      TopIsWinner(mid, w);
    }
  }

  /** Marking one more row of a partly updated table gives that row its final marker. */
  lemma MarkRowIsFinal(fixed: int -> Option<int>, rows: seq<Row>, mid: seq<Row>, i: nat)
    requires UniqueIds(rows) && Between(rows, mid, fixed) && i < |rows|
    ensures MarkRow(fixed, mid, i) == mid[i := MarkAtOnce(fixed, rows)[i]]
  {
    hide Winner;
    var u := rows[i].userId;
    assert mid[i].userId == u;
    if fixed(u).None? { WinnerStands(fixed, rows, mid, u); }
  }

  lemma {:induction false} PartlyMarked(fixed: int -> Option<int>, rows: seq<Row>, order: seq<nat>)
    requires UniqueIds(rows) && forall k :: 0 <= k < |order| ==> order[k] < |rows|
    ensures var mid := MarkInOrder(fixed, rows, order);
            Between(rows, mid, fixed) && forall k :: 0 <= k < |order| ==>
                mid[order[k]] == MarkAtOnce(fixed, rows)[order[k]]
    decreases |order|
  {
    if order != [] {
      var n := |order| - 1;
      PartlyMarked(fixed, rows, order[..n]);
      var mid := MarkInOrder(fixed, rows, order[..n]);
      MarkRowIsFinal(fixed, rows, mid, order[n]);
      hide MarkRow, Choice, UniqueIds;
      forall k | 0 <= k < n ensures mid[order[k]] == MarkAtOnce(fixed, rows)[order[k]] {
        assert order[..n][k] == order[k];
      }
    }
  }

  /** Row by row in any order, with subqueries reading the half-updated table, equals the simultaneous update. */
  lemma AnyOrderIsAtOnce(fixed: int -> Option<int>, rows: seq<Row>, order: seq<nat>)
    requires UniqueIds(rows) && Scan(rows, order)
    ensures MarkInOrder(fixed, rows, order) == MarkAtOnce(fixed, rows)
  {
    PartlyMarked(fixed, rows, order);
    var mid := MarkInOrder(fixed, rows, order);
    forall i | 0 <= i < |rows| ensures mid[i] == MarkAtOnce(fixed, rows)[i] {
      assert i in order;
      var k :| 0 <= k < |order| && order[k] == i;
    }
  }

  ghost predicate SameButMarkers(a: seq<Row>, b: seq<Row>) {
    |a| == |b| && forall i :: 0 <= i < |a| ==> a[i] == b[i].(isDefault := a[i].isDefault)
  }

  lemma {:induction false} OnlyMarkersChange(fixed: int -> Option<int>, rows: seq<Row>, order: seq<nat>)
    requires forall k :: 0 <= k < |order| ==> order[k] < |rows|
    ensures SameButMarkers(MarkInOrder(fixed, rows, order), rows)
    decreases |order|
  {
    if order != [] { OnlyMarkersChange(fixed, rows, order[..|order| - 1]); }
  }

  lemma {:induction false} SelectionIgnoresMarkers(assistants: seq<Row>, a: seq<Row>, b: seq<Row>, userId: int)
    requires SameButMarkers(a, b)
    ensures SelectedOrg(assistants, a, userId) == SelectedOrg(assistants, b, userId)
  {
    if assistants != [] {
      SelectionIgnoresMarkers(assistants[1..], a, b, userId);
      var orgId := assistants[0].orgId;
      if Owns(a, orgId, userId) {
        var i :| 0 <= i < |a| && a[i].id == orgId && a[i].userId == userId;
        assert b[i].id == orgId && b[i].userId == userId;
      }
      if Owns(b, orgId, userId) {
        var i :| 0 <= i < |b| && b[i].id == orgId && b[i].userId == userId;
        assert a[i].id == orgId && a[i].userId == userId;
      }
    }
  }

  // ----- What the migration achieves -----

  /** Exactly one row of the user carries the marker. */
  ghost predicate ExactlyOneDefault(rows: seq<Row>, userId: int) {
    exists i :: 0 <= i < |rows| && rows[i].userId == userId && rows[i].isDefault &&
                forall j :: 0 <= j < |rows| && rows[j].userId == userId && rows[j].isDefault ==> j == i
  }

  ghost predicate HasRow(rows: seq<Row>, userId: int) { exists i :: 0 <= i < |rows| && rows[i].userId == userId }

  lemma ChoiceNamesARow(fixed: int -> Option<int>, rows: seq<Row>, userId: int) returns (i: nat)
    requires HasRow(rows, userId)
    requires fixed(userId).Some? ==> Owns(rows, fixed(userId).value, userId)
    ensures i < |rows| && rows[i].userId == userId && Choice(fixed, rows, userId) == Some(rows[i].id)
  {
    hide BestIndex;
    if fixed(userId).Some? {
      i :| 0 <= i < |rows| && rows[i].id == fixed(userId).value && rows[i].userId == userId;
    } else {
      i := BestIndex(rows, userId).value;
    }
  }

  /** Every user with a row gets one marker, on the row the choice names. */
  lemma MarkedOnce(fixed: int -> Option<int>, rows: seq<Row>, userId: int)
    requires UniqueIds(rows) && HasRow(rows, userId)
    requires fixed(userId).Some? ==> Owns(rows, fixed(userId).value, userId)
    ensures ExactlyOneDefault(MarkAtOnce(fixed, rows), userId)
  {
    hide Choice;
    var r := MarkAtOnce(fixed, rows);
    var i := ChoiceNamesARow(fixed, rows, userId);
    assert r[i].isDefault;
    forall j | 0 <= j < |r| && r[j].userId == userId && r[j].isDefault ensures j == i {
      assert rows[j].id == rows[i].id;
    }
  }

  /** Afterwards each user with assistants has exactly one default assistant. */
  lemma OneDefaultAssistant(assistants: seq<Row>, userId: int)
    requires UniqueIds(assistants) && HasRow(assistants, userId)
    ensures ExactlyOneDefault(MigratedAssistants(assistants), userId)
  {
    MarkedOnce(Nobody, assistants, userId);
  }

  lemma {:induction false} SelectedIsOwned(assistants: seq<Row>, organizations: seq<Row>, userId: int)
    ensures SelectedOrg(assistants, organizations, userId).Some? ==>
              Owns(organizations, SelectedOrg(assistants, organizations, userId).value, userId)
  {
    if assistants != [] { SelectedIsOwned(assistants[1..], organizations, userId); }
  }

  /** ... and each owner exactly one default organisation. */
  lemma OneDefaultOrganization(assistants: seq<Row>, organizations: seq<Row>, userId: int)
    requires UniqueIds(organizations) && HasRow(organizations, userId)
    ensures ExactlyOneDefault(MigratedOrganizations(assistants, organizations), userId)
  {
    SelectedIsOwned(MigratedAssistants(assistants), organizations, userId);
    MarkedOnce((u: int) => SelectedOrg(MigratedAssistants(assistants), organizations, u), organizations, userId);
  }

  lemma MarkedAtMostOnce(fixed: int -> Option<int>, rows: seq<Row>)
    requires UniqueIds(rows)
    ensures OneDefaultEach(MarkAtOnce(fixed, rows))
  {
    var r := MarkAtOnce(fixed, rows);
    forall i, j | 0 <= i < j < |r| && r[i].isDefault && r[j].isDefault ensures r[i].userId != r[j].userId {
      assert rows[i].id != rows[j].id;
    }
  }

  /** So the partial unique indexes can be created, which is all the upserts rely on. */
  lemma MigrationSatisfiesIndexes(assistants: seq<Row>, organizations: seq<Row>)
    requires UniqueIds(assistants) && UniqueIds(organizations)
    ensures OneDefaultEach(MigratedAssistants(assistants))
    ensures OneDefaultEach(MigratedOrganizations(assistants, organizations))
  {
    MarkedAtMostOnce(Nobody, assistants);
    MarkedAtMostOnce((u: int) => SelectedOrg(MigratedAssistants(assistants), organizations, u), organizations);
  }

  // ----- Which row gets the marker -----

  /** A row of the user that was marked before, or any row of the user when none was. */
  ghost predicate Eligible(rows: seq<Row>, userId: int, i: nat)
    requires i < |rows|
  {
    && rows[i].userId == userId
    && (rows[i].isDefault || forall j :: 0 <= j < |rows| && rows[j].userId == userId ==> !rows[j].isDefault)
  }

  /** Of the eligible rows the one created first, and of those created at once the one with the least id. */
  ghost predicate Oldest(rows: seq<Row>, userId: int, i: nat)
    requires i < |rows|
  {
    && Eligible(rows, userId, i)
    && forall j :: 0 <= j < |rows| && Eligible(rows, userId, j) ==>
         rows[i].createdAt < rows[j].createdAt || (rows[i].createdAt == rows[j].createdAt && rows[i].id <= rows[j].id)
  }

  lemma TopIsOldest(rows: seq<Row>, i: nat)
    requires UniqueIds(rows) && Tops(rows, i)
    ensures Oldest(rows, rows[i].userId, i)
  {
    forall j | 0 <= j < |rows| && rows[j].userId == rows[i].userId && rows[j].isDefault ensures rows[i].isDefault {
      assert j == i || Beats(rows[i], rows[j]);
    }
    forall j | 0 <= j < |rows| && Eligible(rows, rows[i].userId, j)
      ensures rows[i].createdAt < rows[j].createdAt ||
              (rows[i].createdAt == rows[j].createdAt && rows[i].id <= rows[j].id)
    {
      assert j == i || Beats(rows[i], rows[j]);
    }
  }

  lemma OnlyOldest(rows: seq<Row>, userId: int, i: nat, j: nat)
    requires UniqueIds(rows) && i < |rows| && j < |rows| && Oldest(rows, userId, i) && Oldest(rows, userId, j)
    ensures i == j
  {
    assert rows[i].id == rows[j].id;
  }

  /** Where nothing is chosen in advance, the oldest row is marked, and no other of that user. */
  lemma OldestIsMarked(fixed: int -> Option<int>, rows: seq<Row>, i: nat)
    requires UniqueIds(rows) && i < |rows| && fixed(rows[i].userId).None?
    ensures MarkAtOnce(fixed, rows)[i].isDefault <==> Oldest(rows, rows[i].userId, i)
  {
    var u := rows[i].userId;
    var best := BestIndex(rows, u).value;
    BestTops(rows, u);
    TopIsOldest(rows, best);
    hide Oldest, BestIndex;
    if Oldest(rows, u, i) { OnlyOldest(rows, u, i, best); }
    assert rows[i].id == rows[best].id <==> i == best;
  }

  /**
   * The default assistant afterwards is, among the user's assistants marked before (or all of them
   * when none was), the one created first, and of those created at once the one with the least id.
   */
  lemma DefaultAssistantIsOldest(assistants: seq<Row>, i: nat)
    requires UniqueIds(assistants) && i < |assistants|
    ensures MigratedAssistants(assistants)[i].isDefault <==> Oldest(assistants, assistants[i].userId, i)
  {
    OldestIsMarked(Nobody, assistants, i);
  }

  /** The user's default assistant is in an organisation the user owns. */
  ghost predicate AssistantSelects(assistants: seq<Row>, organizations: seq<Row>, userId: int) {
    exists k, m ::
      && 0 <= k < |assistants| && 0 <= m < |organizations|
      && assistants[k].userId == userId && assistants[k].isDefault
      && organizations[m].id == assistants[k].orgId && organizations[m].userId == userId
  }

  lemma {:induction false} SelectsExactly(assistants: seq<Row>, organizations: seq<Row>, userId: int)
    ensures SelectedOrg(assistants, organizations, userId).Some? <==>
            AssistantSelects(assistants, organizations, userId)
  {
    if assistants != [] {
      var rest := assistants[1..];
      SelectsExactly(rest, organizations, userId);
      if k, m :| && 0 <= k < |rest| && 0 <= m < |organizations| && rest[k].userId == userId && rest[k].isDefault
                 && organizations[m].id == rest[k].orgId && organizations[m].userId == userId {
        assert assistants[k + 1] == rest[k];
      }
      if k, m :| && 0 <= k < |assistants| && 0 <= m < |organizations|
                 && assistants[k].userId == userId && assistants[k].isDefault
                 && organizations[m].id == assistants[k].orgId && organizations[m].userId == userId {
        if k > 0 { assert rest[k - 1] == assistants[k]; }
      }
    }
  }

  /** And the default organisation is chosen likewise when no default assistant selects one. */
  lemma DefaultOrganizationIsOldest(assistants: seq<Row>, organizations: seq<Row>, i: nat)
    requires UniqueIds(organizations) && i < |organizations|
    requires !AssistantSelects(MigratedAssistants(assistants), organizations, organizations[i].userId)
    ensures MigratedOrganizations(assistants, organizations)[i].isDefault <==>
            Oldest(organizations, organizations[i].userId, i)
  {
    SelectsExactly(MigratedAssistants(assistants), organizations, organizations[i].userId);
    OldestIsMarked((u: int) => SelectedOrg(MigratedAssistants(assistants), organizations, u), organizations, i);
  }

  /** A user's only default assistant stays the default. */
  lemma SoleDefaultKept(assistants: seq<Row>, i: nat)
    requires UniqueIds(assistants) && i < |assistants| && assistants[i].isDefault
    requires forall j :: 0 <= j < |assistants| && j != i && assistants[j].userId == assistants[i].userId ==>
            !assistants[j].isDefault
    ensures MigratedAssistants(assistants)[i].isDefault
  {
    assert Tops(assistants, i);
    TopIsWinner(assistants, i);
  }

  /** The default organisation is the default assistant's whenever the user owns that organisation. */
  lemma OrganizationFollowsAssistant(assistants: seq<Row>, organizations: seq<Row>, i: nat, k: nat)
    requires UniqueIds(assistants) && UniqueIds(organizations) && i < |assistants| && k < |organizations|
    requires MigratedAssistants(assistants)[i].isDefault
    requires organizations[k].id == assistants[i].orgId && organizations[k].userId == assistants[i].userId
    ensures MigratedOrganizations(assistants, organizations)[k].isDefault
  {
    var a := MigratedAssistants(assistants);
    var u := assistants[i].userId;
    OneDefaultAssistant(assistants, u);
    SelectsTheDefault(a, organizations, u, i);
  }

  lemma {:induction false} SelectsTheDefault(assistants: seq<Row>, organizations: seq<Row>, userId: int, i: nat)
    requires i < |assistants| && assistants[i].userId == userId && assistants[i].isDefault &&
            Owns(organizations, assistants[i].orgId, userId)
    requires forall j :: 0 <= j < |assistants| && assistants[j].userId == userId && assistants[j].isDefault ==> j == i
    ensures SelectedOrg(assistants, organizations, userId) == Some(assistants[i].orgId)
  {
    if i > 0 { SelectsTheDefault(assistants[1..], organizations, userId, i - 1); }
  }

  /** A table already marked by its own choice is left alone. */
  lemma MarkedTwice(fixed: int -> Option<int>, rows: seq<Row>)
    requires UniqueIds(rows)
    ensures MarkAtOnce(fixed, MarkAtOnce(fixed, rows)) == MarkAtOnce(fixed, rows)
  {
    var mid := MarkAtOnce(fixed, rows);
    forall i | 0 <= i < |rows| ensures MarkAtOnce(fixed, mid)[i] == mid[i] {
      if fixed(rows[i].userId).None? { WinnerStands(fixed, rows, mid, rows[i].userId); }
    }
  }

  /** Running the migration again changes nothing. */
  lemma MigrationIdempotent(assistants: seq<Row>, organizations: seq<Row>)
    requires UniqueIds(assistants) && UniqueIds(organizations)
    ensures var a := MigratedAssistants(assistants);
            var o := MigratedOrganizations(assistants, organizations);
            MigratedAssistants(a) == a && MigratedOrganizations(a, o) == o
  {
    var a := MigratedAssistants(assistants);
    var o := MigratedOrganizations(assistants, organizations);
    MarkedTwice(Nobody, assistants);
    var fixed := (u: int) => SelectedOrg(a, organizations, u);
    var fixed' := (u: int) => SelectedOrg(a, o, u);
    forall u ensures fixed(u) == fixed'(u) { SelectionIgnoresMarkers(a, o, organizations, u); }
    MarkedTwice(fixed, organizations);
    assert MarkAtOnce(fixed', o) == MarkAtOnce(fixed, o);
  }

  // ----- Between two startups -----

  datatype Tables = Tables(assistants: seq<Row>, organizations: seq<Row>)

  datatype Request =
    | OrganizationAsked(userId: int, newId: int, now: int)
    | AssistantAsked(userId: int, newOrgId: int, newId: int, orgNow: int, now: int)

  function WithOrganization(organizations: seq<Row>, userId: int, newId: int, now: int): (r: seq<Row>)
    ensures DefaultIndex(r, userId) < |r|
  {
    if DefaultIndex(organizations, userId) < |organizations| then organizations
    else
      var added := organizations + [Row(newId, userId, newId, true, now)];
      assert added[|organizations|].userId == userId && added[|organizations|].isDefault;
      added
  }

  /** The new assistant joins the user's default organisation, which is there by then. */
  function WithAssistant(assistants: seq<Row>, organizations: seq<Row>, userId: int, newId: int, now: int): seq<Row>
    requires DefaultIndex(organizations, userId) < |organizations|
  {
    if DefaultIndex(assistants, userId) < |assistants| then assistants
    else assistants + [Row(newId, userId, organizations[DefaultIndex(organizations, userId)].id, true, now)]
  }

  function Serve(t: Tables, r: Request): Tables {
    match r
    case OrganizationAsked(userId, newId, now) =>
      t.(organizations := WithOrganization(t.organizations, userId, newId, now))
    case AssistantAsked(userId, newOrgId, newId, orgNow, now) =>
      var organizations := WithOrganization(t.organizations, userId, newOrgId, orgNow);
      Tables(WithAssistant(t.assistants, organizations, userId, newId, now), organizations)
  }

  ghost predicate FreshId(rows: seq<Row>, id: int) { forall i :: 0 <= i < |rows| ==> rows[i].id != id }

  /** Random ids are new. */
  ghost predicate FreshIds(t: Tables, r: Request) {
    match r
    case OrganizationAsked(_, newId, _) => FreshId(t.organizations, newId)
    case AssistantAsked(_, newOrgId, newId, _, _) => FreshId(t.organizations, newOrgId) && FreshId(t.assistants, newId)
  }

  function ServeAll(t: Tables, rs: seq<Request>): Tables {
    if rs == [] then t else Serve(ServeAll(t, rs[..|rs| - 1]), rs[|rs| - 1])
  }

  ghost predicate FreshRun(t: Tables, rs: seq<Request>) {
    forall i :: 0 <= i < |rs| ==> FreshIds(ServeAll(t, rs[..i]), rs[i])
  }

  ghost function Selected(t: Tables): int -> Option<int> { (u: int) => SelectedOrg(t.assistants, t.organizations, u) }

  /** The migration would change nothing. */
  ghost predicate Settled(t: Tables) {
    && UniqueIds(t.assistants) && UniqueIds(t.organizations)
    && MarkAtOnce(Nobody, t.assistants) == t.assistants
    && MarkAtOnce(Selected(t), t.organizations) == t.organizations
  }

  /** In a settled table a user without a default has no rows at all. */
  lemma NoDefaultNoRows(fixed: int -> Option<int>, rows: seq<Row>, userId: int)
    requires UniqueIds(rows) && MarkAtOnce(fixed, rows) == rows && NoDefault(rows, userId)
    requires fixed(userId).Some? ==> Owns(rows, fixed(userId).value, userId)
    ensures forall i :: 0 <= i < |rows| ==> rows[i].userId != userId
  {
    if HasRow(rows, userId) {
      MarkedOnce(fixed, rows, userId);
      assert false;
    }
  }

  lemma WinnerAfterAppend(rows: seq<Row>, row: Row, userId: int)
    ensures row.userId != userId ==> Winner(rows + [row], userId) == Winner(rows, userId)
    ensures row.userId == userId && (forall i :: 0 <= i < |rows| ==> rows[i].userId != userId) ==>
              Winner(rows + [row], userId) == Some(row.id)
  {
    assert (rows + [row])[..|rows|] == rows;
  }

  /** Adding a user's first row, as the default, leaves a settled table settled. */
  lemma MarkAppend(fixed: int -> Option<int>, fixed': int -> Option<int>, rows: seq<Row>, row: Row)
    requires UniqueIds(rows) && MarkAtOnce(fixed, rows) == rows && FreshId(rows, row.id) && row.isDefault
    requires forall i :: 0 <= i < |rows| ==> rows[i].userId != row.userId
    requires forall u :: u != row.userId ==> fixed'(u) == fixed(u)
    requires fixed'(row.userId).Some? ==> fixed'(row.userId).value == row.id
    ensures UniqueIds(rows + [row]) && MarkAtOnce(fixed', rows + [row]) == rows + [row]
  {
    hide Winner;
    var r := rows + [row];
    WinnerAfterAppend(rows, row, row.userId);
    forall i | 0 <= i < |r| ensures MarkAtOnce(fixed', r)[i] == r[i] {
      if i < |rows| {
        WinnerAfterAppend(rows, row, rows[i].userId);
        assert MarkAtOnce(fixed, rows)[i] == rows[i];
      }
    }
  }

  /** A new organisation can only be selected for its own user. */
  lemma {:induction false} SelectedAfterOrganization(assistants: seq<Row>, organizations: seq<Row>, row: Row,
      userId: int)
    requires row.userId != userId
    ensures SelectedOrg(assistants, organizations + [row], userId) == SelectedOrg(assistants, organizations, userId)
  {
    if assistants != [] {
      SelectedAfterOrganization(assistants[1..], organizations, row, userId);
      var id := assistants[0].orgId;
      if Owns(organizations, id, userId) {
        var i :| 0 <= i < |organizations| && organizations[i].id == id && organizations[i].userId == userId;
        assert (organizations + [row])[i].id == id;
      }
    }
  }

  lemma OrganizationKeepsSettled(t: Tables, userId: int, newId: int, now: int)
    requires Settled(t) && FreshId(t.organizations, newId)
    ensures Settled(t.(organizations := WithOrganization(t.organizations, userId, newId, now)))
  {
    var o := t.organizations;
    if DefaultIndex(o, userId) == |o| {
      var row := Row(newId, userId, newId, true, now);
      var t' := t.(organizations := o + [row]);
      SelectedIsOwned(t.assistants, o, userId);
      NoDefaultNoRows(Selected(t), o, userId);
      SelectedIsOwned(t.assistants, o + [row], userId);
      forall u | u != userId ensures Selected(t')(u) == Selected(t)(u) {
        SelectedAfterOrganization(t.assistants, o, row, u);
      }
      MarkAppend(Selected(t), Selected(t'), o, row);
    }
  }

  lemma {:induction false} SelectedAfterAssistant(assistants: seq<Row>, organizations: seq<Row>, row: Row, userId: int)
    requires row.userId == userId ==> forall i :: 0 <= i < |assistants| ==> assistants[i].userId != userId
    ensures SelectedOrg(assistants + [row], organizations, userId) ==
            if row.userId == userId && row.isDefault && Owns(organizations, row.orgId, userId) then Some(row.orgId)
            else SelectedOrg(assistants, organizations, userId)
  {
    if assistants == [] {
      assert [row][1..] == [];
    } else {
      assert (assistants + [row])[1..] == assistants[1..] + [row];
      SelectedAfterAssistant(assistants[1..], organizations, row, userId);
    }
  }

  lemma {:induction false} NothingSelected(assistants: seq<Row>, organizations: seq<Row>, userId: int)
    requires forall i :: 0 <= i < |assistants| ==> assistants[i].userId != userId
    ensures SelectedOrg(assistants, organizations, userId) == None
  {
    if assistants != [] { NothingSelected(assistants[1..], organizations, userId); }
  }

  lemma AssistantKeepsSettled(t: Tables, userId: int, newId: int, now: int)
    requires Settled(t) && FreshId(t.assistants, newId) && DefaultIndex(t.organizations, userId) < |t.organizations|
    ensures Settled(t.(assistants := WithAssistant(t.assistants, t.organizations, userId, newId, now)))
  {
    var a, o := t.assistants, t.organizations;
    if DefaultIndex(a, userId) == |a| {
      var d := DefaultIndex(o, userId);
      var row := Row(newId, userId, o[d].id, true, now);
      var t' := t.(assistants := a + [row]);
      NoDefaultNoRows(Nobody, a, userId);
      MarkAppend(Nobody, Nobody, a, row);
      NothingSelected(a, o, userId);
      assert Owns(o, row.orgId, userId);
      forall i | 0 <= i < |o| ensures MarkAtOnce(Selected(t'), o)[i] == o[i] {
        SelectedAfterAssistant(a, o, row, o[i].userId);
        assert MarkAtOnce(Selected(t), o)[i] == o[i] && MarkAtOnce(Selected(t), o)[d] == o[d];
      }
    }
  }

  lemma ServeKeepsSettled(t: Tables, r: Request)
    requires Settled(t) && FreshIds(t, r)
    ensures Settled(Serve(t, r))
  {
    hide Settled, WithOrganization, WithAssistant;
    match r
    case OrganizationAsked(userId, newId, now) => OrganizationKeepsSettled(t, userId, newId, now);
    case AssistantAsked(userId, newOrgId, newId, orgNow, now) =>
      OrganizationKeepsSettled(t, userId, newOrgId, orgNow);
      var organizations := WithOrganization(t.organizations, userId, newOrgId, orgNow);
      AssistantKeepsSettled(t.(organizations := organizations), userId, newId, now);
  }

  lemma {:induction false} ServingKeepsSettled(t: Tables, rs: seq<Request>)
    requires Settled(t) && FreshRun(t, rs)
    ensures Settled(ServeAll(t, rs))
  {
    hide Settled, Serve, FreshIds;
    if rs != [] {
      var n := |rs| - 1;
      assert forall i :: 0 <= i < n ==> rs[..n][..i] == rs[..i];
      ServingKeepsSettled(t, rs[..n]);
      ServeKeepsSettled(ServeAll(t, rs[..n]), rs[n]);
    }
  }

  ghost function Migrated(t: Tables): Tables {
    Tables(MigratedAssistants(t.assistants), MigratedOrganizations(t.assistants, t.organizations))
  }

  lemma MigratedIsSettled(t: Tables)
    requires UniqueIds(t.assistants) && UniqueIds(t.organizations)
    ensures Settled(Migrated(t))
  {
    var a, o := MigratedAssistants(t.assistants), MigratedOrganizations(t.assistants, t.organizations);
    MigrationIdempotent(t.assistants, t.organizations);
    assert MigratedAssistants(a) == a;
    assert MarkAtOnce(Selected(Tables(a, o)), o) == MigratedOrganizations(a, o);
  }

  /** A partial scan of a table the update would not change changes nothing. */
  lemma SettledStands(fixed: int -> Option<int>, rows: seq<Row>, order: seq<nat>)
    requires UniqueIds(rows) && MarkAtOnce(fixed, rows) == rows && forall k :: 0 <= k < |order| ==> order[k] < |rows|
    ensures MarkInOrder(fixed, rows, order) == rows
  {
    PartlyMarked(fixed, rows, order);
  }

  /**
   * After the migration and any number of upserts, the next startup's migration leaves every
   * row alone at every point of either scan, so it cannot violate the unique indexes that exist
   * by then, not even half way through.
   */
  lemma NextStartupChangesNothing(t: Tables, rs: seq<Request>, assistantScan: seq<nat>, organizationScan: seq<nat>)
    requires UniqueIds(t.assistants) && UniqueIds(t.organizations)
    requires FreshRun(Migrated(t), rs)
    requires var t' := ServeAll(Migrated(t), rs);
             && (forall k :: 0 <= k < |assistantScan| ==> assistantScan[k] < |t'.assistants|)
             && (forall k :: 0 <= k < |organizationScan| ==> organizationScan[k] < |t'.organizations|)
    ensures var t' := ServeAll(Migrated(t), rs);
            && MarkInOrder(Nobody, t'.assistants, assistantScan) == t'.assistants
            && MarkInOrder(Selected(t'), t'.organizations, organizationScan) == t'.organizations
            && Migrated(t') == t'
            && OneDefaultEach(t'.assistants) && OneDefaultEach(t'.organizations)
  {
    MigratedIsSettled(t);
    ServingKeepsSettled(Migrated(t), rs);
    var t' := ServeAll(Migrated(t), rs);
    hide ServeAll, MarkInOrder;
    SettledStands(Nobody, t'.assistants, assistantScan);
    SettledStands(Selected(t'), t'.organizations, organizationScan);
    MarkedAtMostOnce(Nobody, t'.assistants);
    MarkedAtMostOnce(Selected(t'), t'.organizations);
  }
}
