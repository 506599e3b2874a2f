/** The per-user inventory row builder of snipeit_inv_sign.py
    (`get_users_stock`, lines 379-459): asset rows, accessory rows with
    per-id occurrence suffixes, and the sentinel and error rows. */
module Inventory {
  import opened PyText
  import opened PyJson
  import opened Api

  /** The options of a `ChoiceField` flowable. */
  datatype ChoiceField = ChoiceField(
    name: string, tooltip: string, value: string, options: seq<string>, width: int, height: int)

  /** A table cell: a drop-down field, or a plain value from the API. */
  datatype Cell = Choice(field: ChoiceField) | Value(v: Json)

  type Row = seq<Cell>
  type Table = seq<Row>

  const StatusOptions: seq<string> := ["", "Present", "Missing", "Returned", "Other"]
  const ConditionOptions: seq<string> := ["New", "Good", "Fair", "Poor", "Other"]

  /** The status drop-down of an asset or accessory row. */
  function StatusField(name: string): ChoiceField {
    ChoiceField(name, "Status", "Present", StatusOptions, 80, 14)
  }

  /** The condition drop-down of an asset or accessory row. */
  function ConditionField(name: string, tooltip: string): ChoiceField {
    ChoiceField(name, tooltip, "Good", ConditionOptions, 80, 14)
  }

  const Blank: Cell := Value(JStr(""))

  function AssetSentinel(text: string): Row {
    [Blank, Value(JStr(text)), Blank, Blank, Blank, Blank]
  }

  function AccessorySentinel(text: string): Row {
    [Blank, Value(JStr(text)), Blank, Blank]
  }

  const NoAssetsRow: Row := AssetSentinel("No Assets Assigned")
  const AssetErrorRow: Row := AssetSentinel("Error in data set")
  const NoAccessoriesRow: Row := AccessorySentinel("No Accessories Assigned to user")
  const AccessoryErrorRow: Row := AccessorySentinel("Error in data set")

  // ---------------------------------------------------------------- assets

  /** Lines 388-396: one asset record to one row, or the exception it raises. */
  function AssetRow(asset: Json, host: Host): (r: Result<Row>)
    ensures r.Ok? <==> Index(asset, "asset_tag").Ok? && Index(asset, "name").Ok? &&
                       Unescape(Index(asset, "name").value, host).Ok? && Index(asset, "model").Ok? &&
                       Index(Index(asset, "model").value, "name").Ok? &&
                       Unescape(Index(Index(asset, "model").value, "name").value, host).Ok? &&
                       Index(asset, "serial").Ok?
    ensures r.Ok? ==> |r.value| == 6 && r.value[0].Choice? && r.value[5].Choice? &&
                      r.value[1] == Value(Index(asset, "asset_tag").value) &&
                      r.value[2] == Value(Unescape(Index(asset, "name").value, host).value) &&
                      r.value[3] == Value(Unescape(Index(Index(asset, "model").value, "name").value, host).value) &&
                      r.value[4] == Value(Index(asset, "serial").value)
  {
    var tag :- Index(asset, "asset_tag");
    var name :- Index(asset, "name");
    var model :- Index(asset, "model");
    var modelName :- Index(model, "name");
    var modelText :- Unescape(modelName, host);
    var serial :- Index(asset, "serial");
    var nameText :- Unescape(name, host);
    Ok([Choice(StatusField("Asset Status " + Str(tag, host))),
        Value(tag), Value(nameText), Value(modelText), Value(serial),
        Choice(ConditionField("Asset Condition " + Str(tag, host), "Condition"))])
  }

  function AssetRowFn(host: Host): Json -> Result<Row> {
    asset => AssetRow(asset, host)
  }

  /** Lines 387-403 and 409-411 once the records are known: the rows built
      before any exception, then the error row if one was raised, or the
      single "no assets" row if there was nothing to build. */
  function AssetListing(items: seq<Json>, host: Host): (t: Table)
    ensures 1 <= |t| <= |items| + 1
    ensures items == [] <==> t == [NoAssetsRow]
  {
    var rows := TakeOk(items, AssetRowFn(host));
    assert AssetErrorRow[1] != NoAssetsRow[1];
    assert rows != [] ==> AssetRowFn(host)(items[0]) == Ok(rows[0]) && rows[0][0].Choice?;
    if |rows| < |items| then
      assert (rows + [AssetErrorRow])[|rows|] == AssetErrorRow;
      rows + [AssetErrorRow]
    else if rows == [] then [NoAssetsRow]
    else rows
  }

  /** The asset table of one user, from the parsed assets response. */
  function AssetTable(parsed: Result<Json>, host: Host): (t: Table)
    ensures |t| >= 1
    ensures RowItems(parsed).None? ==> t == [AssetErrorRow]
    ensures RowItems(parsed) == Some([]) ==> t == [NoAssetsRow]
  {
    match RowItems(parsed)
    case None => [AssetErrorRow]
    case Some(items) => AssetListing(items, host)
  }

  /** An asset record whose tag, name, model name and serial can be read
      (whatever other keys it has) gives the six-cell row, with both drop-downs
      keyed by its tag and both texts unescaped. */
  lemma AssetRowOfRecord(asset: Json, tag: Json, name: string, model: Json, modelName: string, serial: Json, host: Host)
    requires Index(asset, "asset_tag") == Ok(tag) && Index(asset, "name") == Ok(JStr(name))
    requires Index(asset, "model") == Ok(model) && Index(model, "name") == Ok(JStr(modelName))
    requires Index(asset, "serial") == Ok(serial)
    ensures AssetRow(asset, host) ==
              Ok([Choice(ChoiceField("Asset Status " + Str(tag, host), "Status", "Present",
                                     ["", "Present", "Missing", "Returned", "Other"], 80, 14)),
                  Value(tag), Value(JStr(UnescapeText(name, host))), Value(JStr(UnescapeText(modelName, host))),
                  Value(serial),
                  Choice(ChoiceField("Asset Condition " + Str(tag, host), "Condition", "Good",
                                     ["New", "Good", "Fair", "Poor", "Other"], 80, 14))])
  {
  }

  /** The asset table always has at least one row. */
  lemma AssetTableNeverEmpty(parsed: Result<Json>, host: Host)
    ensures |AssetTable(parsed, host)| >= 1
  {
  }

  /** A missing "rows" key, an unparsable body or a response of the wrong
      shape gives exactly the one error row. */
  lemma AssetTableWithoutRows(parsed: Result<Json>, host: Host)
    requires RowItems(parsed).None?
    ensures AssetTable(parsed, host) == [AssetErrorRow]
  {
  }

  /** Present but empty "rows": exactly the one "no assets" row. */
  lemma AssetTableEmptyRows(parsed: Result<Json>, host: Host)
    requires RowItems(parsed) == Some([])
    ensures AssetTable(parsed, host) == [NoAssetsRow]
    ensures forall c :: c in AssetTable(parsed, host)[0] ==> !c.Choice?
  {
  }

  /** Every asset builds: one row per asset, in API order. */
  lemma AssetTableOneRowPerAsset(parsed: Result<Json>, items: seq<Json>, host: Host)
    requires RowItems(parsed) == Some(items) && items != []
    requires forall k :: 0 <= k < |items| ==> AssetRow(items[k], host).Ok?
    ensures |AssetTable(parsed, host)| == |items|
    ensures forall k :: 0 <= k < |items| ==> AssetTable(parsed, host)[k] == AssetRow(items[k], host).value
  {
    TakeOkAll(items, AssetRowFn(host));
  }

  /** The first asset that raises ends the loop: the rows built before it,
      then the error row. */
  lemma AssetTableStopsAtFailure(parsed: Result<Json>, items: seq<Json>, n: nat, host: Host)
    requires RowItems(parsed) == Some(items) && n < |items|
    requires forall k :: 0 <= k < n ==> AssetRow(items[k], host).Ok?
    requires AssetRow(items[n], host).Err?
    ensures |AssetTable(parsed, host)| == n + 1
    ensures forall k :: 0 <= k < n ==> AssetTable(parsed, host)[k] == AssetRow(items[k], host).value
    ensures AssetTable(parsed, host)[n] == AssetErrorRow
  {
  }

  /** Lines 380-412: the asset table of one user. */
  method BuildAssetTable(parsed: Result<Json>, host: Host) returns (table: Table)
    ensures table == AssetTable(parsed, host)
  {
    var items := RowItems(parsed);
    if items.None? {
      table := [AssetErrorRow];
    } else {
      var rows, raised := CollectOk(items.value, AssetRowFn(host));   // lines 387-396
      if raised {
        table := rows + [AssetErrorRow];
      } else if rows == [] {
        table := [NoAssetsRow];
      } else {
        table := rows;
      }
    }
  }

  // ----------------------------------------------------------- accessories

  /** What lines 423-428 take from one accessory record. */
  datatype AccItem = AccItem(id: Json, name: Json)

  /** Lines 423-428: the id, the unescaped name, and the dict lookup
      `accessory_id in accessory_count`, which raises for a list or dict id. */
  function AccessoryItem(acc: Json, host: Host): (r: Result<AccItem>)
    ensures r.Ok? <==> Index(acc, "id").Ok? && Index(acc, "name").Ok? &&
                       Unescape(Index(acc, "name").value, host).Ok? && Hashable(Index(acc, "id").value)
    ensures r.Ok? ==> r.value == AccItem(Index(acc, "id").value, Unescape(Index(acc, "name").value, host).value)
    ensures (Index(acc, "id").Ok? && Index(acc, "name").Ok? && Unescape(Index(acc, "name").value, host).Ok? &&
             !Hashable(Index(acc, "id").value)) ==> r == Err(TypeError)
  {
    var id :- Index(acc, "id");
    var name :- Index(acc, "name");
    var text :- Unescape(name, host);
    if Hashable(id) then Ok(AccItem(id, text)) else Err(TypeError)
  }

  function AccessoryItemFn(host: Host): Json -> Result<AccItem> {
    acc => AccessoryItem(acc, host)
  }

  /** How many of `its` carry the accessory id `id`. */
  function Occurrences(its: seq<AccItem>, id: Json): nat {
    if its == [] then 0
    else Occurrences(its[..|its| - 1], id) + (if its[|its| - 1].id == id then 1 else 0)
  }

  /** "" for the first unit of an id, "_k" for the k-th unit after it. */
  function Suffix(occurrence: nat): string {
    if occurrence == 1 then "" else "_" + NatStr(occurrence)
  }

  function AccessoryStatusName(id: Json, occurrence: nat, host: Host): string {
    "Accessory Status " + Str(id, host) + Suffix(occurrence)
  }

  function AccessoryConditionName(id: Json, occurrence: nat, host: Host): string {
    "Accessory Condition " + Str(id, host) + Suffix(occurrence)
  }

  /** Lines 440-442: the row of the `occurrence`-th unit of an accessory id. */
  function AccessoryRow(it: AccItem, occurrence: nat, host: Host): Row {
    [Choice(StatusField(AccessoryStatusName(it.id, occurrence, host))),
     Value(it.name), Value(it.id),
     Choice(ConditionField(AccessoryConditionName(it.id, occurrence, host), "Accessory Condition"))]
  }

  /** The rows of a run of accessories: row k is the n-th unit of its id,
      n counting row k and the earlier rows with the same id. */
  function AccessoryRows(its: seq<AccItem>, host: Host): (t: Table)
    ensures |t| == |its|
  {
    seq(|its|, k requires 0 <= k < |its| => AccessoryRow(its[k], Occurrences(its[..k + 1], its[k].id), host))
  }

  /** `accessories_df` once the loop of lines 422-443 has run without
      raising: the table assigned on the last pass (line 443), or, when there
      were no records, whatever the variable held before; None means it was
      never assigned. */
  function FrameAfterLoop(prev: Option<Table>, items: seq<Json>, host: Host): Option<Table> {
    if |items| > 0 then Some(AccessoryRows(TakeOk(items, AccessoryItemFn(host)), host)) else prev
  }

  /** Lines 421-459 once the records are known. */
  function AccessoryListing(prev: Option<Table>, items: seq<Json>, host: Host): (t: Table)
    ensures |t| >= 1
    ensures items == [] ==> t == (if prev.None? then [AccessoryErrorRow]
                                  else if prev.value == [] then [NoAccessoriesRow]
                                  else prev.value)
  {
    var its := TakeOk(items, AccessoryItemFn(host));
    var rows := AccessoryRows(its, host);
    if |its| < |items| then rows + [AccessoryErrorRow]
    else
      match FrameAfterLoop(prev, items, host)
      case None => [AccessoryErrorRow]   // UnboundLocalError at line 445, caught at line 456
      case Some(t) => if |t| == 0 then rows + [NoAccessoriesRow] else t
  }

  /** Lines 414-459 AS WRITTEN: the accessory table of one user, given the
      table the previous user left in `accessories_df`. */
  function AccessoryTable(prev: Option<Table>, parsed: Result<Json>, host: Host): (t: Table)
    ensures |t| >= 1
    ensures RowItems(parsed).None? ==> t == [AccessoryErrorRow]
    ensures RowItems(parsed) == Some([]) && prev.Some? && prev.value != [] ==> t == prev.value
  {
    match RowItems(parsed)
    case None => [AccessoryErrorRow]
    case Some(items) => AccessoryListing(prev, items, host)
  }

  /** The accessory table the builder evidently intends: the same except that
      a user with no accessories gets the "no accessories" row. */
  function AccessoryTableIntended(parsed: Result<Json>, host: Host): (t: Table)
    ensures |t| >= 1
    ensures RowItems(parsed) == Some([]) ==> t == [NoAccessoriesRow]
  {
    match RowItems(parsed)
    case None => [AccessoryErrorRow]
    case Some(items) =>
      var its := TakeOk(items, AccessoryItemFn(host));
      var rows := AccessoryRows(its, host);
      if |its| < |items| then rows + [AccessoryErrorRow]
      else if rows == [] then [NoAccessoriesRow]
      else rows
  }

  /** Every table the builder assigns has a row, so once `accessories_df`
      has been bound, the `.empty` test of line 445 is false. */
  lemma EmptyTestNeverTrue(prev: Option<Table>, items: seq<Json>, host: Host)
    requires prev.None? || prev.value != []
    requires |TakeOk(items, AccessoryItemFn(host))| == |items|
    ensures FrameAfterLoop(prev, items, host).None? || FrameAfterLoop(prev, items, host).value != []
  {
  }

  /** A row built from an accessory starts with its status drop-down, so it
      is never one of the sentinel rows. */
  lemma NoSentinelAmongRows(its: seq<AccItem>, host: Host)
    ensures NoAccessoriesRow !in AccessoryRows(its, host)
    ensures AccessoryErrorRow !in AccessoryRows(its, host)
  {
    var t: Table := AccessoryRows(its, host);
    forall k | 0 <= k < |t| ensures t[k][0].Choice? {
      RowAt(its, k, host);
    }
  }

  /** With `accessories_df` unbound or holding a table the builder made, the
      "No Accessories Assigned to user" row never appears: lines 446-448 are
      unreachable, and the table always has a row. */
  lemma NoAccessoriesRowNeverEmitted(prev: Option<Table>, parsed: Result<Json>, host: Host)
    requires prev.None? || (prev.value != [] && NoAccessoriesRow !in prev.value)
    ensures NoAccessoriesRow !in AccessoryTable(prev, parsed, host)
    ensures |AccessoryTable(prev, parsed, host)| >= 1
  {
    assert AccessoryErrorRow != NoAccessoriesRow by {
      assert AccessoryErrorRow[1] != NoAccessoriesRow[1];
    }
    if RowItems(parsed).Some? {
      var items := RowItems(parsed).value;
      var its := TakeOk(items, AccessoryItemFn(host));
      NoSentinelAmongRows(its, host);
      if |its| == |items| {
        EmptyTestNeverTrue(prev, items, host);
      }
    }
  }

  /** The first user without accessories: `accessories_df` is unbound at
      line 445, and the caught UnboundLocalError gives one error row. */
  lemma FirstUserWithoutAccessories(parsed: Result<Json>, host: Host)
    requires RowItems(parsed) == Some([])
    ensures AccessoryTable(None, parsed, host) == [AccessoryErrorRow]
  {
  }

  /** A later user without accessories gets the previous user's table. */
  lemma LaterUserWithoutAccessories(t: Table, parsed: Result<Json>, host: Host)
    requires RowItems(parsed) == Some([]) && t != []
    ensures AccessoryTable(Some(t), parsed, host) == t
  {
  }

  /** Every accessory builds: one row per unit, in API order, carrying its
      unescaped name and its id; the carried-over table plays no part. */
  lemma AccessoryListingOneRowPerUnit(prev: Option<Table>, items: seq<Json>, host: Host)
    requires items != []
    requires forall k :: 0 <= k < |items| ==> AccessoryItem(items[k], host).Ok?
    ensures var t := AccessoryListing(prev, items, host);
            |t| == |items| &&
            forall k :: 0 <= k < |items| ==>
              |t[k]| == 4 &&
              t[k][1] == Value(AccessoryItem(items[k], host).value.name) &&
              t[k][2] == Value(AccessoryItem(items[k], host).value.id)
  {
    AllAccessoriesBuild(items, host);
    ListingWhenAllBuild(prev, items, host);
    forall k | 0 <= k < |items| {
      RowFields(items, k, host);
    }
  }

  lemma AllAccessoriesBuild(items: seq<Json>, host: Host)
    requires forall k :: 0 <= k < |items| ==> AccessoryItem(items[k], host).Ok?
    ensures |TakeOk(items, AccessoryItemFn(host))| == |items|
  {
    var f := AccessoryItemFn(host);
    assert forall k :: 0 <= k < |items| ==> f(items[k]) == AccessoryItem(items[k], host);
    TakeOkAll(items, f);
  }

  lemma RowFields(items: seq<Json>, k: nat, host: Host)
    requires k < |TakeOk(items, AccessoryItemFn(host))|
    ensures var its := TakeOk(items, AccessoryItemFn(host));
            AccessoryItem(items[k], host) == Ok(its[k]) &&
            |AccessoryRows(its, host)[k]| == 4 &&
            AccessoryRows(its, host)[k][1] == Value(its[k].name) &&
            AccessoryRows(its, host)[k][2] == Value(its[k].id)
  {
    var f := AccessoryItemFn(host);
    var its := TakeOk(items, f);
    assert f(items[k]) == Ok(its[k]);
    RowAt(its, k, host);
  }

  lemma ListingWhenAllBuild(prev: Option<Table>, items: seq<Json>, host: Host)
    requires items != [] && |TakeOk(items, AccessoryItemFn(host))| == |items|
    ensures AccessoryListing(prev, items, host) == AccessoryRows(TakeOk(items, AccessoryItemFn(host)), host)
  {
  }

  /** The first accessory that raises ends the loop: the rows built before
      it, then the error row (lines 456-458). */
  lemma AccessoryTableStopsAtFailure(prev: Option<Table>, parsed: Result<Json>, items: seq<Json>, n: nat, host: Host)
    requires RowItems(parsed) == Some(items) && n < |items|
    requires forall k :: 0 <= k < n ==> AccessoryItem(items[k], host).Ok?
    requires AccessoryItem(items[n], host).Err?
    ensures var t := AccessoryTable(prev, parsed, host);
            |t| == n + 1 && t[n] == AccessoryErrorRow &&
            t[..n] == AccessoryRows(seq(n, k requires 0 <= k < n => AccessoryItem(items[k], host).value), host)
  {
    var its := seq(n, k requires 0 <= k < n => AccessoryItem(items[k], host).value);
    TakeOkUnique(items, AccessoryItemFn(host), its);
  }

  /** The builder as written and the intended one differ exactly on users
      whose "rows" list is empty. */
  lemma AccessoryTableMatchesIntended(prev: Option<Table>, parsed: Result<Json>, host: Host)
    requires prev.None? || (prev.value != [] && NoAccessoriesRow !in prev.value)
    ensures AccessoryTable(prev, parsed, host) == AccessoryTableIntended(parsed, host) <==> RowItems(parsed) != Some([])
  {
    assert AccessoryErrorRow != NoAccessoriesRow by {
      assert AccessoryErrorRow[1] != NoAccessoriesRow[1];
    }
    if RowItems(parsed) == Some([]) && prev.Some? {
      assert prev.value != [NoAccessoriesRow];
    }
  }

  /** The discrepancy on concrete data: a user with an empty "rows" list,
      processed after a user whose accessory listing failed, is shown the
      error row instead of "No Accessories Assigned to user". */
  lemma StaleAccessoryTable(host: Host)
    ensures var parsed := Ok(JObj([("rows", JArr([]))]));
            AccessoryTable(Some([AccessoryErrorRow]), parsed, host) == [AccessoryErrorRow] &&
            AccessoryTableIntended(parsed, host) == [NoAccessoriesRow]
  {
    var parsed := Ok(JObj([("rows", JArr([]))]));
    assert parsed.value.fields[0].0 == "rows";
    assert RowItems(parsed) == Some([]);
  }

  lemma OccurrencesSnoc(its: seq<AccItem>, it: AccItem, id: Json)
    ensures Occurrences(its + [it], id) == Occurrences(its, id) + (if it.id == id then 1 else 0)
  {
    assert (its + [it])[..|its|] == its;
  }

  /** `accessory_count` agrees with the units seen so far. */
  ghost predicate Counted(count: map<Json, nat>, its: seq<AccItem>) {
    forall id :: (id in count <==> Occurrences(its, id) > 0) &&
                 (id in count ==> count[id] == Occurrences(its, id))
  }

  /** One pass through lines 430-434 keeps the counter in step. */
  lemma CountedStep(count: map<Json, nat>, its: seq<AccItem>, it: AccItem, count': map<Json, nat>)
    requires Counted(count, its)
    requires count' == if it.id in count then count[it.id := count[it.id] + 1] else count[it.id := 1]
    ensures Counted(count', its + [it])
    ensures it.id in count' && count'[it.id] == Occurrences(its + [it], it.id)
  {
    forall key ensures Occurrences(its + [it], key) == Occurrences(its, key) + (if it.id == key then 1 else 0) {
      OccurrencesSnoc(its, it, key);
    }
  }

  lemma AccessoryRowsSnoc(its: seq<AccItem>, it: AccItem, host: Host)
    ensures AccessoryRows(its + [it], host) ==
            AccessoryRows(its, host) + [AccessoryRow(it, Occurrences(its + [it], it.id), host)]
  {
    var all := its + [it];
    var a, b := AccessoryRows(all, host), AccessoryRows(its, host) + [AccessoryRow(it, Occurrences(all, it.id), host)];
    forall k | 0 <= k < |all| ensures a[k] == b[k] {
      if k < |its| {
        assert all[..k + 1] == its[..k + 1] && all[k] == its[k];
        RowAt(its, k, host);
      } else {
        assert all[..k + 1] == all;
      }
      RowAt(all, k, host);
    }
  }

  /** Lines 428-442: one accessory unit bumps its id's counter and appends
      its row, named after the updated count. */
  method AddUnit(rows: Table, count: map<Json, nat>, ghost its: seq<AccItem>, it: AccItem, host: Host)
    returns (rows': Table, count': map<Json, nat>)
    requires rows == AccessoryRows(its, host) && Counted(count, its)
    ensures rows' == AccessoryRows(its + [it], host) && Counted(count', its + [it])
  {
    var id := it.id;
    if id in count {
      count' := count[id := count[id] + 1];
    } else {
      count' := count[id := 1];
    }
    CountedStep(count, its, it, count');
    AccessoryRowsSnoc(its, it, host);
    rows' := rows + [AccessoryRow(it, count'[id], host)];
  }

  /** Lines 421-443 as a loop: the rows of one user's accessories, with the
      per-id counter that starts empty for every user. */
  method CollectAccessoryRows(items: seq<Json>, host: Host)
    returns (rows: Table, raised: bool, count: map<Json, nat>)
    ensures var its := TakeOk(items, AccessoryItemFn(host));
            rows == AccessoryRows(its, host) && (raised <==> |its| < |items|)
    ensures var its := TakeOk(items, AccessoryItemFn(host));
            forall id :: id in count <==> Occurrences(its, id) > 0
    ensures var its := TakeOk(items, AccessoryItemFn(host));
            forall id :: id in count ==> count[id] == Occurrences(its, id)
  {
    rows, raised, count := [], false, map[];
    ghost var its: seq<AccItem> := [];
    ghost var f := AccessoryItemFn(host);
    var i := 0;
    while i < |items| && !raised
      invariant i <= |items| && |its| == i
      invariant forall k :: 0 <= k < i ==> f(items[k]) == Ok(its[k])
      invariant raised ==> i < |items| && f(items[i]).Err?
      invariant rows == AccessoryRows(its, host)
      invariant Counted(count, its)
      decreases |items| - i, if raised then 0 else 1
    {
      var r := AccessoryItem(items[i], host);
      assert f(items[i]) == r;
      if r.Err? {
        raised := true;
      } else {
        rows, count := AddUnit(rows, count, its, r.value, host);
        its := its + [r.value];
        i := i + 1;
      }
    }
    TakeOkUnique(items, f, its);
  }

  // ------------------------------------------------- accessory properties

  /** The ids of a run of accessories, in order. */
  function Ids(its: seq<AccItem>): (r: seq<Json>)
    ensures |r| == |its| && forall k :: 0 <= k < |its| ==> r[k] == its[k].id
  {
    seq(|its|, k requires 0 <= k < |its| => its[k].id)
  }

  /** The counter agrees with an independent count: the multiplicity of the
      id among the ids seen. */
  lemma {:induction false} OccurrencesIsMultiplicity(its: seq<AccItem>, id: Json)
    ensures Occurrences(its, id) == multiset(Ids(its))[id]
  {
    if its != [] {
      var init := its[..|its| - 1];
      OccurrencesIsMultiplicity(init, id);
      assert Ids(its) == Ids(init) + [its[|its| - 1].id];
    }
  }

  /** Row k of the accessory table: a unit seen for the first time gets the
      bare names "Accessory Status {id}" / "Accessory Condition {id}", the n-th
      unit of an id (n >= 2) gets "_n" on both, n counting row k and the rows
      before it with that id. */
  lemma AccessoryRowNames(its: seq<AccItem>, k: nat, host: Host)
    requires k < |its|
    ensures var n := multiset(Ids(its[..k + 1]))[its[k].id];
            var sfx := if n == 1 then "" else "_" + NatStr(n);
            var t := AccessoryRows(its, host);
            n >= 1 &&
            (n == 1 <==> forall j :: 0 <= j < k ==> its[j].id != its[k].id) &&
            t[k] == [Choice(ChoiceField("Accessory Status " + Str(its[k].id, host) + sfx, "Status", "Present",
                                        ["", "Present", "Missing", "Returned", "Other"], 80, 14)),
                     Value(its[k].name), Value(its[k].id),
                     Choice(ChoiceField("Accessory Condition " + Str(its[k].id, host) + sfx, "Accessory Condition",
                                        "Good", ["New", "Good", "Fair", "Poor", "Other"], 80, 14))]
  {
    var id := its[k].id;
    OccurrencesIsMultiplicity(its[..k + 1], id);
    OccurrencesIsMultiplicity(its[..k], id);
    assert its[..k + 1] == its[..k] + [its[k]];
    OccurrencesSnoc(its[..k], its[k], id);
    assert Occurrences(its[..k + 1], id) == Occurrences(its[..k], id) + 1;
    assert id in multiset(Ids(its[..k])) <==> exists j :: 0 <= j < k && Ids(its[..k])[j] == id;
  }

  /** A text without '_' followed by nothing or by "_...": the split point is
      the first underscore, so both parts are determined. */
  lemma SplitAtUnderscore(s1: string, t1: string, s2: string, t2: string)
    requires '_' !in s1 && '_' !in s2
    requires t1 == [] || t1[0] == '_'
    requires t2 == [] || t2[0] == '_'
    requires s1 + t1 == s2 + t2
    ensures s1 == s2 && t1 == t2
  {
    NotShorter(s1, t1, s2, t2);
    NotShorter(s2, t2, s1, t1);
    assert s1 == (s1 + t1)[..|s1|];
    assert s2 == (s2 + t2)[..|s2|];
    assert t1 == (s1 + t1)[|s1|..];
    assert t2 == (s2 + t2)[|s2|..];
  }

  /** When the first part is the shorter one, the second part begins with a
      character of the longer first part. */
  lemma NotShorter(s1: string, t1: string, s2: string, t2: string)
    requires '_' !in s2
    requires s1 + t1 == s2 + t2
    ensures |s1| < |s2| ==> t1 != [] && t1[0] != '_'
  {
    if |s1| < |s2| {
      assert (s1 + t1)[|s1|] == s2[|s1|];
    }
  }

  lemma SuffixInjective(m: nat, n: nat)
    requires m >= 1 && n >= 1 && Suffix(m) == Suffix(n)
    ensures m == n
  {
    if m != 1 && n != 1 {
      assert NatStr(m) == Suffix(m)[1..] == Suffix(n)[1..] == NatStr(n);
      NatStrInjective(m, n);
    }
  }

  lemma {:induction false} OccurrencesPrefixMonotone(its: seq<AccItem>, i: nat, j: nat, id: Json)
    requires i <= j <= |its|
    ensures Occurrences(its[..i], id) <= Occurrences(its[..j], id)
  {
    if i < j {
      OccurrencesPrefixMonotone(its, i, j - 1, id);
      assert its[..j][..j - 1] == its[..j - 1];
    }
  }

  /** With integer ids, no two rows of the accessory table carry the same
      status drop-down (nor the same condition drop-down): their field names
      differ, so the form never merges two of them. */
  lemma AccessoryNamesDistinct(its: seq<AccItem>, k: nat, l: nat, host: Host)
    requires k < l < |its| && its[k].id.JInt? && its[l].id.JInt?
    ensures |AccessoryRows(its, host)[k]| == |AccessoryRows(its, host)[l]| == 4
    ensures AccessoryRows(its, host)[k][0] != AccessoryRows(its, host)[l][0]
    ensures AccessoryRows(its, host)[k][3] != AccessoryRows(its, host)[l][3]
  {
    DistinctPair(its, k, l, host);
    var m, n := Occurrences(its[..k + 1], its[k].id), Occurrences(its[..l + 1], its[l].id);
    RowAt(its, k, host);
    RowAt(its, l, host);
    RowFieldNames(its[k], m, host);
    RowFieldNames(its[l], n, host);
  }

  lemma RowFieldNames(it: AccItem, occurrence: nat, host: Host)
    ensures var r := AccessoryRow(it, occurrence, host);
            r[0].Choice? && r[0].field.name == AccessoryStatusName(it.id, occurrence, host) &&
            r[3].Choice? && r[3].field.name == AccessoryConditionName(it.id, occurrence, host)
  {
  }

  lemma RowAt(its: seq<AccItem>, k: nat, host: Host)
    requires k < |its|
    ensures AccessoryRows(its, host)[k] == AccessoryRow(its[k], Occurrences(its[..k + 1], its[k].id), host)
  {
  }

  lemma DistinctPair(its: seq<AccItem>, k: nat, l: nat, host: Host)
    requires k < l < |its| && its[k].id.JInt? && its[l].id.JInt?
    ensures var m, n := Occurrences(its[..k + 1], its[k].id), Occurrences(its[..l + 1], its[l].id);
            AccessoryStatusName(its[k].id, m, host) != AccessoryStatusName(its[l].id, n, host) &&
            AccessoryConditionName(its[k].id, m, host) != AccessoryConditionName(its[l].id, n, host)
  {
    var a, b := its[k].id, its[l].id;
    var m, n := Occurrences(its[..k + 1], a), Occurrences(its[..l + 1], b);
    OccurrencesSnoc(its[..k], its[k], a);
    OccurrencesSnoc(its[..l], its[l], b);
    assert its[..k + 1] == its[..k] + [its[k]] && its[..l + 1] == its[..l] + [its[l]];
    if a == b {
      OccurrencesPrefixMonotone(its, k + 1, l, a);
    }
    var x, y := Str(a, host) + Suffix(m), Str(b, host) + Suffix(n);
    if x == y {
      IntStrInjective(a.i, b.i);
      IntStrInjective(b.i, a.i);
      SplitAtUnderscore(Str(a, host), Suffix(m), Str(b, host), Suffix(n));
      SuffixInjective(m, n);
    }
    NamesDiffer("Accessory Status ", x, y);
    NamesDiffer("Accessory Condition ", x, y);
    assert AccessoryStatusName(a, m, host) == "Accessory Status " + x;
    assert AccessoryStatusName(b, n, host) == "Accessory Status " + y;
    assert AccessoryConditionName(a, m, host) == "Accessory Condition " + x;
    assert AccessoryConditionName(b, n, host) == "Accessory Condition " + y;
  }

  lemma NamesDiffer(prefix: string, x: string, y: string)
    ensures prefix + x == prefix + y ==> x == y
  {
    if prefix + x == prefix + y {
      assert x == (prefix + x)[|prefix|..];
      assert y == (prefix + y)[|prefix|..];
    }
  }

  /** Lines 414-459: the accessory table of one user, given the carried-over
      `accessories_df`. */
  method BuildAccessoryTable(prev: Option<Table>, parsed: Result<Json>, host: Host) returns (table: Table)
    ensures table == AccessoryTable(prev, parsed, host)
  {
    var items := RowItems(parsed);
    if items.None? {
      table := [AccessoryErrorRow];
      return;
    }
    var rows, raised, count := CollectAccessoryRows(items.value, host);
    if raised {
      table := rows + [AccessoryErrorRow];
      return;
    }
    var df := if |items.value| > 0 then Some(rows) else prev;
    if df.None? {
      table := [AccessoryErrorRow];   // UnboundLocalError at `accessories_df.empty`, caught
    } else if |df.value| == 0 {
      table := rows + [NoAccessoriesRow];
    } else {
      table := df.value;
    }
  }
}
