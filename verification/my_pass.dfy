/** The voucher listing of `pages/MyPass.tsx`: read the account's first 50 holdings, look
    each asset up, and keep the rows that look like FoodPass vouchers. The ledger lookups are
    parameters. */
module MyPass {
  import opened Wrappers
  import opened Text
  import opened Seqs

  /** How many holdings are looked at. */
  const ExaminedHoldings: nat := 50

  datatype Holding = Holding(assetId: int, amount: int)

  /** An account as the ledger returns it; `assets` may be absent. */
  datatype AccountInfo = AccountInfo(assets: Option<seq<Holding>>)

  /** The asset parameters the listing reads; an asset without parameters reads as all absent. */
  datatype AssetParams = AssetParams(name: Option<string>, unitName: Option<string>, url: Option<string>)

  datatype AssetRow = AssetRow(assetId: int, amount: int, name: Option<string>,
                               unitName: Option<string>, url: Option<string>)

  /** The FoodPass test: unit name `foodpass`, or a name starting with `foodpass`, in any
      case; a missing name or unit name counts as the empty string. */
  predicate IsFoodPass(row: AssetRow) {
    ToLower(row.unitName.GetOr("")) == "foodpass" || StartsWith(ToLower(row.name.GetOr("")), "foodpass")
  }

  function IsFoodPassTest(): AssetRow -> bool {
    (row: AssetRow) => IsFoodPass(row)
  }

  /** `rows.filter(...)`: the FoodPass rows, in their order. */
  function FoodPasses(rows: seq<AssetRow>): (passes: seq<AssetRow>)
    ensures forall row :: row in passes <==> row in rows && IsFoodPass(row)
    ensures IsSubsequence(passes, rows)
    ensures forall row :: multiset(passes)[row] == if IsFoodPass(row) then multiset(rows)[row] else 0
  {
    FilterIsSubsequence(rows, IsFoodPassTest());
    FilterMultiset(rows, IsFoodPassTest());
    Filter(rows, IsFoodPassTest())
  }

  /** The row the listing shows for a holding whose asset has parameters `p`. */
  function RowOf(h: Holding, p: AssetParams): AssetRow {
    AssetRow(h.assetId, h.amount, p.name, p.unitName, p.url)
  }

  /** One row per holding, in order; None as soon as one asset lookup throws. */
  function BuildRows(holdings: seq<Holding>, lookup: int -> Option<AssetParams>): (rows: Option<seq<AssetRow>>)
    ensures rows.None? <==> exists i :: 0 <= i < |holdings| && lookup(holdings[i].assetId).None?
    ensures rows.Some? ==>
              && |rows.value| == |holdings|
              && forall i :: 0 <= i < |holdings| ==>
                   lookup(holdings[i].assetId).Some?
                   && rows.value[i] == RowOf(holdings[i], lookup(holdings[i].assetId).value)
  {
    if holdings == [] then Some([])
    else
      var h := holdings[0];
      assert forall i :: 1 <= i < |holdings| ==> holdings[i] == holdings[1..][i - 1];
      match lookup(h.assetId)
      case None => None
      case Some(p) =>
        match BuildRows(holdings[1..], lookup)
        case None => None
        case Some(rest) => Some([RowOf(h, p)] + rest)
  }

  /** The holdings the listing looks at: the first 50, none when `assets` is absent. */
  function Examined(info: AccountInfo): (examined: seq<Holding>)
    ensures var holdings := info.assets.GetOr([]);
            && |examined| == (if |holdings| <= ExaminedHoldings then |holdings| else ExaminedHoldings)
            && examined == holdings[..|examined|]
  {
    Take(info.assets.GetOr([]), ExaminedHoldings)
  }

  /** What one load does: return silently without a wallet, raise the load-failed toast
      when a ledger call throws (both leave the listing as it was), or set the listing. */
  datatype LoadOutcome = NotConnected | LoadFailed | Loaded(rows: seq<AssetRow>)

  /** `loadAssets`. The page does not look at the role. */
  function LoadAssets(activeAddress: Option<string>, account: string -> Option<AccountInfo>,
                      lookup: int -> Option<AssetParams>): (listing: LoadOutcome)
    ensures listing == NotConnected <==> !Truthy(activeAddress)
    ensures listing == LoadFailed <==>
              && Truthy(activeAddress)
              && (|| account(activeAddress.value).None?
                  || exists i :: 0 <= i < |Examined(account(activeAddress.value).value)|
                                 && lookup(Examined(account(activeAddress.value).value)[i].assetId).None?)
    ensures listing.Loaded? ==>
              && |listing.rows| <= ExaminedHoldings
              && listing.rows == FoodPasses(BuildRows(Examined(account(activeAddress.value).value), lookup).value)
              && var holdings := account(activeAddress.value).value.assets.GetOr([]);
                 forall row :: row in listing.rows ==>
                   exists i :: 0 <= i < |holdings| && i < ExaminedHoldings && holdings[i].assetId == row.assetId
  {
    if !Truthy(activeAddress) then NotConnected
    else match account(activeAddress.value)
      case None => LoadFailed
      case Some(info) =>
        var holdings := info.assets.GetOr([]);
        var examined := Examined(info);
        match BuildRows(examined, lookup)
        case None => LoadFailed
        case Some(rows) =>
          var passes := FoodPasses(rows);
          SubsequenceMembers(passes, rows);
          assert forall row :: row in passes ==>
                   exists i :: 0 <= i < |examined| && holdings[i].assetId == row.assetId by {
            forall row | row in passes
              ensures exists i :: 0 <= i < |examined| && holdings[i].assetId == row.assetId
            {
              var k :| 0 <= k < |rows| && rows[k] == row;
              assert examined[k] == holdings[k];
            }
          }
          Loaded(passes)
  }

  /** Holdings past the 50th are never looked at: cutting them off changes nothing, even
      when looking them up would throw. */
  lemma LoadAssetsIgnoresLaterHoldings(activeAddress: Option<string>, holdings: seq<Holding>,
                                       account1: string -> Option<AccountInfo>,
                                       account2: string -> Option<AccountInfo>,
                                       lookup: int -> Option<AssetParams>)
    requires Truthy(activeAddress)
    requires account1(activeAddress.value) == Some(AccountInfo(Some(holdings)))
    requires account2(activeAddress.value) == Some(AccountInfo(Some(Take(holdings, ExaminedHoldings))))
    ensures LoadAssets(activeAddress, account1, lookup) == LoadAssets(activeAddress, account2, lookup)
  {
    var t := Take(holdings, ExaminedHoldings);
    assert Take(t, ExaminedHoldings) == t;
  }

  /** A row with neither a name nor a unit name is never listed. */
  lemma NamelessRowNotListed(assetId: int, amount: int, url: Option<string>)
    ensures !IsFoodPass(AssetRow(assetId, amount, None, None, url))
  {
    assert ToLower("") == "";
  }
}
