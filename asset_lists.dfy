/**
 * The two asset lists: a building's assets under `["assets", buildingId]`, and the overview of all
 * assets, optionally filtered by the `status` search parameter, under `["assets", status]`.
 */
module AssetListsView {
  import opened Wrappers
  import opened Text
  import opened Records
  import opened Tables
  import opened AssetQueries

  /** The path a card of the building's list navigates to. */
  function AssetPath(customerId: string, buildingId: string, assetId: string): (p: string) {
    "/customers/" + customerId + "/buildings/" + buildingId + "/assets/" + assetId
  }

  /** Within one building's list, distinct assets link to distinct paths, each ending in its id. */
  lemma PathsDistinct(customerId: string, buildingId: string, a1: string, a2: string)
    ensures AssetPath(customerId, buildingId, a1) == AssetPath(customerId, buildingId, a2) <==> a1 == a2
    ensures var p := AssetPath(customerId, buildingId, a1); p[|p| - |a1|..] == a1
  {
    var prefix := "/customers/" + customerId + "/buildings/" + buildingId + "/assets/";
    assert AssetPath(customerId, buildingId, a1) == prefix + a1;
    assert AssetPath(customerId, buildingId, a2) == prefix + a2;
    if prefix + a1 == prefix + a2 {
      assert a1 == (prefix + a1)[|prefix|..];
      assert a2 == (prefix + a2)[|prefix|..];
    }
    assert (prefix + a1)[|prefix + a1| - |a1|..] == a1;
  }

  /** `!data?.length`: the building list's empty state. */
  predicate ShowsEmpty(data: Option<seq<Asset>>) {
    data.None? || |data.value| == 0
  }

  /** With the read loaded, a building's list shows the empty state exactly when the building has no asset. */
  lemma BuildingListEmpty(db: Db, buildingId: Id)
    ensures ShowsEmpty(Some(FetchAssets(db, buildingId, Ok).value)) <==> forall a :: a in db.assets ==> a.buildingId != buildingId
  {
    var rows := FetchAssets(db, buildingId, Ok).value;
    if rows != [] {
      assert rows[0] in rows;
    }
  }

  /** The overview's heading. */
  function Heading(status: Option<string>): (h: string) {
    if status.Some? && Truthy(status.value) then status.value + " Assets" else "All Assets"
  }

  /** The overview's empty-state text, which embeds the lower-cased status. */
  function EmptyText(status: Option<string>): (t: string) {
    if status.Some? && Truthy(status.value) then "There are no " + AsciiLower(status.value) + " assets available."
    else "Assets will appear here once they are created."
  }

  /**
   * A status in the search parameters names the heading and the empty text, and an absent or
   * empty one reads as "all"; in both cases the overview shows what `fetchAllAssets` returns for it.
   */
  lemma OverviewTexts(status: Option<string>)
    ensures Truthy(Heading(status))
    ensures status.Some? && Truthy(status.value) ==>
      Heading(status)[..|status.value|] == status.value &&
      |EmptyText(status)| == |status.value| + 31 &&
      EmptyText(status)[13..13 + |status.value|] == AsciiLower(status.value)
    ensures status.None? || !Truthy(status.value) ==> Heading(status) == "All Assets"
  {
    if status.Some? && Truthy(status.value) {
      var s := status.value;
      assert Heading(status) == s + " Assets";
      var t := "There are no " + AsciiLower(s) + " assets available.";
      assert |"There are no "| == 13;
      assert t[13..13 + |s|] == AsciiLower(s);
    }
  }

  /**
   * The overview lists the rows `fetchAllAssets` returns: every asset for an absent or empty status,
   * and exactly the assets holding that status otherwise.
   */
  lemma OverviewRows(db: Db, status: Option<string>, a: Asset)
    ensures var rows := FetchAllAssets(db, status, Ok).value;
      (status.None? || !Truthy(status.value) ==> rows == db.assets) &&
      (status.Some? && Truthy(status.value) ==> (a in rows <==> a in db.assets && a.status == status.value))
  {
    FetchAllAssetsLists(db, status);
  }
}
