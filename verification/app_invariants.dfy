/** Facts that tie the pages together: the role store as healed by the selector gates the
    menu and every privileged action, the demo wallet passes the address check, and a
    minted voucher is listed by the voucher page. */
module AppInvariants {
  import opened Wrappers
  import opened Text
  import opened JsValues
  import opened Storage
  import opened Roles
  import opened RoleSwitcher
  import opened Navbar
  import opened Address
  import MintPass
  import Redeem
  import Merchants
  import MyPass

  /** Once the selector has rendered, the menu never needs its fallback: it is exactly what
      the stored role may see. */
  lemma HealedRoleNeedsNoNavFallback(store: RoleStore, activeAddress: Option<string>)
    ensures var role := SafeRole(store, activeAddress).store.role;
            EffectiveNav(AllowedRoles(activeAddress), role) == AllNav(role)
  {
  }

  /** The same holds right after a role pick. */
  lemma PickedRoleNeedsNoNavFallback(store: RoleStore, activeAddress: Option<string>, next: Role)
    ensures var role := OnChange(store, activeAddress, next).store.role;
            EffectiveNav(AllowedRoles(activeAddress), role) == AllNav(role)
  {
  }

  /** After the selector has healed the store, an address other than the demo wallet sees
      only the ungated menu and can neither mint, redeem, nor change the merchant directory. */
  lemma NonDemoWalletIsPublicOnly(store: RoleStore, activeAddress: Option<string>,
                                  mintForm: MintPass.MintForm, ledger: MintPass.Ledger,
                                  signer: MintPass.Signer, cache: Raw<JsNumber>,
                                  redeemForm: Redeem.RedeemForm, id: string, date: string,
                                  log: Raw<Redeem.Redemption>,
                                  addrInput: string, nameInput: string, removed: string,
                                  list: seq<Merchants.MerchantEntry>)
    requires !IsDemoSuperWallet(activeAddress)
    ensures var role := SafeRole(store, activeAddress).store.role;
            && EffectiveNav(AllowedRoles(activeAddress), role) == Always
            && MintPass.DoMint(activeAddress, role, mintForm, ledger, signer, cache).outcome
               in {MintPass.NotConnected, MintPass.NotAdmin}
            && !Redeem.OnRedeem(activeAddress, role, redeemForm, id, date, log).outcome.Recorded?
            && Merchants.OnAdd(role, addrInput, nameInput, list) == Merchants.AddRun(Merchants.AddNotAdmin, list)
            && Merchants.OnRemove(role, removed, list) == Merchants.RemoveRun(Merchants.RemoveNotAdmin, list)
  {
    AllNavByRole();
  }

  /** The demo wallet, however it is spelled, is itself a plausible address. */
  lemma DemoWalletIsValidAddr(activeAddress: Option<string>)
    requires IsDemoSuperWallet(activeAddress)
    ensures IsValidAddr(activeAddress.value)
  {
  }

  /** Every voucher the mint page creates is listed by the voucher page, on its unit name
      and on its name alike, whatever the campaign. */
  lemma MintedVoucherIsListed(sender: string, form: MintPass.MintForm, sp: MintPass.SuggestedParams,
                              assetId: int, amount: int, url: Option<string>)
    ensures var txn := MintPass.BuildCreateTxn(sender, form, sp);
            var row := MyPass.AssetRow(assetId, amount, Some(txn.assetName), Some(txn.unitName), url);
            && ToLower(txn.unitName) == "foodpass"
            && StartsWith(ToLower(txn.assetName), "foodpass")
            && MyPass.IsFoodPass(row)
  {
    var txn := MintPass.BuildCreateTxn(sender, form, sp);
    assert ToLower("FOODPASS") == "foodpass";
    var lowered := ToLower(txn.assetName);
    assert txn.assetName[..8] == "FoodPass";
    assert lowered[..8] == "foodpass";
  }

  /** End to end: when the connected account holds a minted voucher among its first 50
      holdings and every lookup of those succeeds, the voucher page lists that holding. */
  lemma MintedVoucherIsListedOnLoad(sender: string, form: MintPass.MintForm, sp: MintPass.SuggestedParams,
                                    activeAddress: Option<string>,
                                    account: string -> Option<MyPass.AccountInfo>,
                                    lookup: int -> Option<MyPass.AssetParams>,
                                    k: nat, url: Option<string>)
    requires Truthy(activeAddress) && account(activeAddress.value).Some?
    requires var examined := MyPass.Examined(account(activeAddress.value).value);
             && k < |examined|
             && (forall i :: 0 <= i < |examined| ==> lookup(examined[i].assetId).Some?)
             && var txn := MintPass.BuildCreateTxn(sender, form, sp);
                lookup(examined[k].assetId) == Some(MyPass.AssetParams(Some(txn.assetName), Some(txn.unitName), url))
    ensures var listing := MyPass.LoadAssets(activeAddress, account, lookup);
            var h := MyPass.Examined(account(activeAddress.value).value)[k];
            && listing.Loaded?
            && MyPass.RowOf(h, lookup(h.assetId).value) in listing.rows
  {
    var examined := MyPass.Examined(account(activeAddress.value).value);
    var h := examined[k];
    MintedVoucherIsListed(sender, form, sp, h.assetId, h.amount, url);
    var rows := MyPass.BuildRows(examined, lookup);
    assert rows.Some?;
    assert rows.value[k] == MyPass.RowOf(h, lookup(h.assetId).value);
  }
}
