# FoodPass front end, modelled in Dafny

FoodPass is a humanitarian food-voucher dApp on Algorand. An NGO administrator
mints single-unit "FoodPass" assets (vouchers) to beneficiaries. An admin keeps
a list of approved merchants. A merchant records redemptions when they scan a
beneficiary's QR code. A beneficiary lists the FoodPass assets in their wallet.
Role-based access in the browser decides who may do what. There are four roles:
`public`, `admin`, `merchant` and `beneficiary`. Only one hard-coded "demo super
wallet" may switch away from `public`.

This project models that core as pure Dafny functions over immutable data:

- the role enumeration and the demo-wallet test (`Roles`);
- the allowed-role computation, the role picker and its self-healing of the
  stored role (`RoleSwitcher`);
- the role-filtered navigation menu (`Navbar`);
- the address length check shared by two pages (`Address`);
- the voucher mint flow and the minted-id cache (`MintPass`);
- the merchant's local redemption log (`Redeem`);
- the admin's merchant directory (`Merchants`);
- the beneficiary's voucher listing (`MyPass`);
- the environment-variable lookup (`Env`).

The JavaScript semantics these rely on are modelled explicitly:

- `String.prototype.trim` and its whitespace set, and truthiness of optional
  strings (`Text`);
- `??` and `Number(...)` on a number that may be NaN or infinite (`JsValues`);
- `filter`, `slice(0, n)` and `Array.from(new Set(...))` (`Seqs`);
- a `localStorage` read that may be missing, empty, malformed JSON or a
  non-array (`Storage`).

Effects become data or parameters:

- The role store is one cell that counts its writes. Each write stands for one
  role-changed notification.
- The algod node is a `Ledger` value with function-typed fields.
- The wallet is a `Signer` function.
- Account and asset lookups are functions into `Option`.
- The clock and the UUID generator are inputs to `Redeem.OnRedeem`.
- Each page action and each role pick returns its outcome: the error toast it
  would raise, a silent return, or success. Where they apply, it also returns
  the new persisted state and what it handed to the node and the wallet.

`AppInvariants` proves facts that span several files. For example, once the
picker has healed the store for a wallet other than the demo wallet, a page
action that reads the role after the heal refuses to mint, record a redemption
or edit the merchant directory.

The voucher listing is not role-gated. `MyPass` loads the listing for any
connected wallet, whatever the role. The role only picks the page's badge
(`pages/MyPass.tsx:22`, `:86`), so `MyPass.LoadAssets` takes no role.

Where the page's input hints promise more than its handlers check, the model
follows the handlers:

- The meal-count field carries `min={1}` (`pages/MintPass.tsx:149`), but
  `doMint` does not reject a non-positive count. The count only goes into the
  metadata.
- Redeem, Merchants and MintPass check the raw stored role. They do not use the
  role healed by `RoleSwitcher.SafeRole`. The lemmas in `AppInvariants` show
  the healed role is what the store holds after a render. MintPass reads the
  role through `useRole` (`pages/MintPass.tsx:27`), so it renders again when the
  role changes. Redeem and Merchants call `getRole()` while they render
  (`pages/Redeem.tsx:39`, `pages/Merchants.tsx:31`) and do not subscribe to role
  changes.

## Model

Every source file cited below lives under
`Algorand-Food-Pass/projects/Algorand-Food-Pass/src/`.

| member | source | states |
|---|---|---|
| Roles.RolesAreClosed | Algorand-Food-Pass/projects/Algorand-Food-Pass/src/config/roles.ts:4 | every role value is one of exactly four distinct roles |
| Roles.RoleName | Algorand-Food-Pass/projects/Algorand-Food-Pass/src/config/roles.ts:4 | each role's stored string parses back to that same role |
| Roles.ParseRoleOnlyNames | Algorand-Food-Pass/projects/Algorand-Food-Pass/src/config/roles.ts:4 | only the four role names parse as roles; any other string is no role |
| Roles.IsDemoSuperWallet | Algorand-Food-Pass/projects/Algorand-Food-Pass/src/config/roles.ts:6-9 | an absent, null or empty address is never the demo wallet; an accepted address trims to a 58-character string |
| Roles.DemoWalletCaseInsensitive | Algorand-Food-Pass/projects/Algorand-Food-Pass/src/config/roles.ts:1-8 | the demo address in any mix of letter case, with any whitespace around it, is accepted |
| Roles.DemoWalletOnlyCaseVariants | Algorand-Food-Pass/projects/Algorand-Food-Pass/src/config/roles.ts:1-8 | an ASCII address is accepted only if, once trimmed, it is the demo address up to letter case |
| Roles.DemoWalletAcceptsDotlessI | Algorand-Food-Pass/projects/Algorand-Food-Pass/src/config/roles.ts:8 | upper-casing also maps the dotless i (U+0131) to I, so an address that is not ASCII is accepted too |
| Roles.DemoWalletIgnoresPadding | Algorand-Food-Pass/projects/Algorand-Food-Pass/src/config/roles.ts:8 | surrounding whitespace never changes the verdict |
| Roles.BlankIsNotDemo | Algorand-Food-Pass/projects/Algorand-Food-Pass/src/config/roles.ts:6-8 | an address of nothing but whitespace is never the demo wallet |
| Roles.UpperVariantRecognised | Algorand-Food-Pass/projects/Algorand-Food-Pass/src/config/roles.ts:8 | every address whose characters upper-case onto the demo wallet is accepted, with any whitespace around it |
| RoleSwitcher.AllowedRoles | Algorand-Food-Pass/projects/Algorand-Food-Pass/src/components/RoleSwitcher.tsx:8-12 | public is always first; a role other than public is allowed iff the address is the demo wallet; no role repeats |
| RoleSwitcher.AllowedRolesCases | Algorand-Food-Pass/projects/Algorand-Food-Pass/src/components/RoleSwitcher.tsx:8-12 | the allowed list is exactly public alone, or all four roles in declaration order for the demo wallet |
| RoleSwitcher.DisabledUnlessDemo | Algorand-Food-Pass/projects/Algorand-Food-Pass/src/components/RoleSwitcher.tsx:18-19 | the picker is disabled iff the wallet is not the demo wallet |
| RoleSwitcher.OnChange | Algorand-Food-Pass/projects/Algorand-Food-Pass/src/components/RoleSwitcher.tsx:21-33 | no wallet raises the connect-first toast, a role the wallet may not hold raises the not-authorized toast, and either resets the store to public; otherwise there is no toast and the pick is stored; the stored role is always allowed; exactly one write happens |
| RoleSwitcher.SafeRole | Algorand-Food-Pass/projects/Algorand-Food-Pass/src/components/RoleSwitcher.tsx:35-37 | the shown role is the stored one if allowed, else public; the store is written only when they differ, and the stored role is then allowed |
| RoleSwitcher.InitialRenderWritesNothing | Algorand-Food-Pass/projects/Algorand-Food-Pass/src/components/RoleSwitcher.tsx:35-37 | on the store as first persisted, public, the picker shows public and writes nothing, for any wallet |
| RoleSwitcher.SafeRoleIdempotent | Algorand-Food-Pass/projects/Algorand-Food-Pass/src/components/RoleSwitcher.tsx:35-37 | a second render after healing changes nothing and writes nothing |
| RoleSwitcher.SafeRoleHealsToPublic | Algorand-Food-Pass/projects/Algorand-Food-Pass/src/components/RoleSwitcher.tsx:35-37 | without the demo wallet any stored role other than public is reset to public |
| Navbar.AllNav | Algorand-Food-Pass/projects/Algorand-Food-Pass/src/components/Navbar.tsx:72-84 | an item is shown iff it has no role list or its list names the current role; shown items keep their declared order |
| Navbar.EffectiveNav | Algorand-Food-Pass/projects/Algorand-Food-Pass/src/components/Navbar.tsx:86-92 | a role the wallet may not hold sees only the three public links; an allowed role sees its filtered menu; the public links always lead |
| Navbar.AllNavByBlock | Algorand-Food-Pass/projects/Algorand-Food-Pass/src/components/Navbar.tsx:72-84 | filtering the whole menu equals filtering each of the four blocks and joining the results |
| Navbar.AllNavByRole | Algorand-Food-Pass/projects/Algorand-Food-Pass/src/components/Navbar.tsx:18-32 | public sees only Home, Transparency and Docs; admin adds Dashboard, Mint Pass and Merchants; merchant adds Redeem; beneficiary adds My FoodPass |
| Navbar.AllNavIsOwnBlock | Algorand-Food-Pass/projects/Algorand-Food-Pass/src/components/Navbar.tsx:16-32 | every role sees the three public links followed by exactly the block gated to that role, and public sees no gated entry |
| Navbar.AlwaysLeadsAllNav | Algorand-Food-Pass/projects/Algorand-Food-Pass/src/components/Navbar.tsx:73-84 | for every role the menu begins with the three public links |
| Address.IsValidAddr | Algorand-Food-Pass/projects/Algorand-Food-Pass/src/pages/Merchants.tsx:38-42 | an accepted address is never blank, and the raw input holds at least 40 characters |
| Address.ValidAddrIsLengthOnly | Algorand-Food-Pass/projects/Algorand-Food-Pass/src/pages/Merchants.tsx:38-42 | a trimmed address passes iff its length is 40 to 64, whatever its characters |
| Address.ValidAddrIgnoresPadding | Algorand-Food-Pass/projects/Algorand-Food-Pass/src/pages/Redeem.tsx:48-51 | surrounding whitespace never changes the verdict, and an all-whitespace address never passes |
| Seqs.DedupBySet | Algorand-Food-Pass/projects/Algorand-Food-Pass/src/pages/MintPass.tsx:21 | the set-based pass keeps the first occurrence of each value in order, agreeing with the reference definition of first-occurrence deduplication |
| Seqs.DedupFacts | Algorand-Food-Pass/projects/Algorand-Food-Pass/src/pages/MintPass.tsx:21 | the Set keeps every value of its input exactly once, adds nothing, and keeps the input's relative order |
| Seqs.DedupSnoc | Algorand-Food-Pass/projects/Algorand-Food-Pass/src/pages/MintPass.tsx:21 | appending a value extends the result by that value iff it was not seen before; with the empty case this pins the result to the values in order of first occurrence |
| MintPass.SaveMintedAssetId | Algorand-Food-Pass/projects/Algorand-Food-Pass/src/pages/MintPass.tsx:17-24 | the new id comes first, the cache holds at most 20 ids and no repeats, the rest keep their old relative order, and nothing new appears |
| MintPass.SaveMintedAssetIdShifts | Algorand-Food-Pass/projects/Algorand-Food-Pass/src/pages/MintPass.tsx:21 | on a cache without repeats, saving moves the id to the front, removes its old copy and drops only the oldest entries beyond 20 |
| MintPass.SaveMintedAssetIdIdempotent | Algorand-Food-Pass/projects/Algorand-Food-Pass/src/pages/MintPass.tsx:21 | saving the same id twice leaves the cache as saving it once |
| MintPass.ReadCache | Algorand-Food-Pass/projects/Algorand-Food-Pass/src/pages/MintPass.tsx:19-20 | a missing or empty entry reads as no ids; the read fails exactly on malformed JSON or a non-array |
| MintPass.BuildCreateTxn | Algorand-Food-Pass/projects/Algorand-Food-Pass/src/pages/MintPass.tsx:61-88 | the transaction creates one indivisible, frozen-by-default FOODPASS unit named after the campaign, every authority is the sender, the metadata carries the form with all meals remaining, and the suggested parameters pass through |
| MintPass.AssetIdOf | Algorand-Food-Pass/projects/Algorand-Food-Pass/src/pages/MintPass.tsx:110 | a numeric `assetIndex` is the id even when it is 0 or NaN, since `??` skips only undefined and null; the id is falsy iff the field used is missing, null, NaN or zero |
| MintPass.SignedOnly | Algorand-Food-Pass/projects/Algorand-Food-Pass/src/pages/MintPass.tsx:95-100 | one blob per signed slot, no other blob, and empty iff every slot was null |
| MintPass.SignedOnlyKeepsOrder | Algorand-Food-Pass/projects/Algorand-Food-Pass/src/pages/MintPass.tsx:95-100 | each signed slot's blob sits after the blobs of the slots signed before it, so the wallet's order is kept |
| MintPass.DoMint | Algorand-Food-Pass/projects/Algorand-Food-Pass/src/pages/MintPass.tsx:44-121 | no wallet or a non-admin role stops before any call; a built transaction is a one-unit, frozen FOODPASS creation controlled by the sender; only signed bytes are sent; a mint reports the txid the send returned, non-empty, and the truthy asset id read from that txid's confirmation, and puts that id first in the cache; any other outcome leaves the cache unchanged |
| MintPass.BlockedMintCallsNothing | Algorand-Food-Pass/projects/Algorand-Food-Pass/src/pages/MintPass.tsx:45-52 | a blocked mint does not depend on the node or the wallet at all |
| MintPass.AllUnsignedSendsNothing | Algorand-Food-Pass/projects/Algorand-Food-Pass/src/pages/MintPass.tsx:93-100 | if the wallet returns only nulls, nothing is sent and the mint fails |
| MintPass.MissingTxIdFails | Algorand-Food-Pass/projects/Algorand-Food-Pass/src/pages/MintPass.tsx:102-105 | a send answer without a txid, or with an empty one, fails the mint as a missing txid and leaves the cache unchanged |
| MintPass.FalsyAssetIdFails | Algorand-Food-Pass/projects/Algorand-Food-Pass/src/pages/MintPass.tsx:107-111 | any confirmation whose asset id converts to NaN or zero, including a camelCase `assetIndex` of 0 or NaN, fails the mint as a missing asset id with the cache unchanged |
| MintPass.SuccessfulStepsMint | Algorand-Food-Pass/projects/Algorand-Food-Pass/src/pages/MintPass.tsx:44-121 | when every call succeeds, the mint reports the confirmed asset id under the sent txid and the cache then reads back with that id first |
| MintPass.UnreadableCacheHidesMint | Algorand-Food-Pass/projects/Algorand-Food-Pass/src/pages/MintPass.tsx:17-24 | when the cached list is malformed the admin's mint is reported as failed and the cache is left as it was |
| Storage.LoadArray | Algorand-Food-Pass/projects/Algorand-Food-Pass/src/pages/Merchants.tsx:15-24 | a stored array is returned whole; anything else reads as the empty list |
| Redeem.LoadRedemptions | Algorand-Food-Pass/projects/Algorand-Food-Pass/src/pages/Redeem.tsx:23-32 | a stored array is the log; missing, empty, malformed or non-array storage reads as an empty log |
| Redeem.PrependRecord | Algorand-Food-Pass/projects/Algorand-Food-Pass/src/pages/Redeem.tsx:89-90 | the new record is first, the log grows by one up to a cap of 100, and the older records follow in order, dropping only the oldest |
| Redeem.OnRedeem | Algorand-Food-Pass/projects/Algorand-Food-Pass/src/pages/Redeem.tsx:53-103 | each guard in source order gives its own outcome and leaves the log unchanged; a recorded redemption names the connected merchant, the trimmed beneficiary, the amount, and a note only if it is not blank |
| Redeem.RecordedComesFirst | Algorand-Food-Pass/projects/Algorand-Food-Pass/src/pages/Redeem.tsx:79-91 | a recorded redemption is the head of the saved log, followed by the previously stored entries in their order, at most 100 in all |
| Redeem.ValidRedeemIsRecorded | Algorand-Food-Pass/projects/Algorand-Food-Pass/src/pages/Redeem.tsx:53-91 | a connected merchant with a valid beneficiary and a positive finite amount always gets a record |
| Merchants.OnAdd | Algorand-Food-Pass/projects/Algorand-Food-Pass/src/pages/Merchants.tsx:44-72 | a non-admin, blank, invalid or already listed address each yields its own refusal and an unchanged list; otherwise the trimmed address is prepended; distinct addresses stay distinct |
| Merchants.OnRemove | Algorand-Food-Pass/projects/Algorand-Food-Pass/src/pages/Merchants.tsx:74-83 | a non-admin changes nothing; an admin removes every entry with that address and keeps every copy of each other entry, in order |
| Merchants.AddThenRemoveRestores | Algorand-Food-Pass/projects/Algorand-Food-Pass/src/pages/Merchants.tsx:44-83 | removing a just-added merchant restores the earlier list |
| Merchants.AddTwiceRefused | Algorand-Food-Pass/projects/Algorand-Food-Pass/src/pages/Merchants.tsx:60-63 | adding the same address again, with any name, is refused as already listed |
| MyPass.FoodPasses | Algorand-Food-Pass/projects/Algorand-Food-Pass/src/pages/MyPass.tsx:60-64 | keeps exactly the rows whose unit name is "foodpass" or whose name starts with "foodpass", ignoring case, every copy of each, in order |
| MyPass.BuildRows | Algorand-Food-Pass/projects/Algorand-Food-Pass/src/pages/MyPass.tsx:42-58 | fails iff some holding's asset lookup fails; otherwise one row per holding, in order, with its id, amount, and its asset's name, unit name and url |
| MyPass.LoadAssets | Algorand-Food-Pass/projects/Algorand-Food-Pass/src/pages/MyPass.tsx:31-72 | no address returns silently; with one, the load fails (the error toast) iff the account read or a lookup among the first 50 holdings fails; otherwise the listing is the FoodPass rows of those 50 holdings, whatever the role |
| MyPass.LoadAssetsIgnoresLaterHoldings | Algorand-Food-Pass/projects/Algorand-Food-Pass/src/pages/MyPass.tsx:40-43 | holdings past the first 50 never affect the listing |
| MyPass.NamelessRowNotListed | Algorand-Food-Pass/projects/Algorand-Food-Pass/src/pages/MyPass.tsx:61-63 | an asset with neither name nor unit name is not a FoodPass |
| Env.Lookup | Algorand-Food-Pass/projects/Algorand-Food-Pass/src/config/env.ts:1-8 | a set value is returned as its string form; an unset or blank one gives the fallback, or a missing-variable error naming the key iff there is no fallback |
| Env.LookupKeepsWhitespace | Algorand-Food-Pass/projects/Algorand-Food-Pass/src/config/env.ts:7 | a set value is returned untrimmed |
| Env.FallbackIgnoredWhenSet | Algorand-Food-Pass/projects/Algorand-Food-Pass/src/config/env.ts:3-7 | once a value is set the fallback has no effect |
| AppInvariants.HealedRoleNeedsNoNavFallback | Algorand-Food-Pass/projects/Algorand-Food-Pass/src/components/Navbar.tsx:86-92 | after the picker heals the store, the menu is the role's full filtered menu |
| AppInvariants.PickedRoleNeedsNoNavFallback | Algorand-Food-Pass/projects/Algorand-Food-Pass/src/components/RoleSwitcher.tsx:21-33 | any role the picker stores gets its full filtered menu |
| AppInvariants.NonDemoWalletIsPublicOnly | Algorand-Food-Pass/projects/Algorand-Food-Pass/src/components/RoleSwitcher.tsx:35-37 | without the demo wallet the healed role is public: the menu is the public links, minting, recording and merchant edits are all refused, and no list changes |
| AppInvariants.DemoWalletIsValidAddr | Algorand-Food-Pass/projects/Algorand-Food-Pass/src/config/roles.ts:1-2 | the demo address passes the pages' address length check |
| AppInvariants.MintedVoucherIsListed | Algorand-Food-Pass/projects/Algorand-Food-Pass/src/pages/MintPass.tsx:80-81 | a voucher as minted passes the listing filter on the My FoodPass page |
| AppInvariants.MintedVoucherIsListedOnLoad | Algorand-Food-Pass/projects/Algorand-Food-Pass/src/pages/MyPass.tsx:31-66 | a holding of a minted voucher among the account's first 50 is in the loaded listing whenever every lookup succeeds |

## Left out

- Stale renders: Redeem and Merchants read `getRole()` only when they render, so
  a click handler from an earlier render acts on the role it read then. For
  example, Merchants' Remove button can still act as admin after the picker has
  healed the store. The model gives each action the role stored when it runs,
  so the `AppInvariants` facts hold only for an action that reads the role after
  the heal.
- React rendering, hooks, loading flags and form resets are not modelled. Toasts are modelled only as the outcome each action and role pick names.
- The event bus is not modelled. A role write counts as one `foodpass-role-changed` event; `foodpass-assets-changed` is not modelled.
- `lib/roleStore` is not part of this model. The store's starting value `public` (`RoleSwitcher.InitialStore`) is assumed, not derived.
- `lib/algod`, `config/network`, the wallet provider, `WalletButton`, `App` routing and the static pages (Home, Transparency, Docs, Dashboard) are not part of this model.
- Confirmation polling and its round budget live in `lib/algod`, which is not part of this model. Confirmation is a lookup that succeeds or fails.
- algosdk transaction encoding and signing bytes are opaque. The wallet is a function from transactions to optional signed blobs.
- JSON and URL encoding of the metadata is left out. The asset URL is kept as the structured metadata record.
- The clock (`Date.toISOString`) and `crypto.randomUUID` are inputs to `Redeem.OnRedeem`.
- `localStorage` is a `Raw` value per key. Cross-tab races and quota errors are not modelled.
- MintPass.ReadCache: a JSON string in the cache would be spread into characters by the source. The model treats every non-array as unreadable.
- Storage.LoadArray: element types of parsed arrays are not checked by the source. The model assumes well-formed elements.
- MyPass.BuildRows: `Number()` of a bigint asset id may lose precision above 2^53. Ids and amounts are modelled as exact integers.
- Text.ToUpper: upper-casing covers ASCII letters plus U+0131 and U+017F. Every other character, including one-to-one non-ASCII mappings such as é to É, is left unchanged, and mappings that change string length (such as ß) are not modelled.
- Text.ToLower: lower-casing covers ASCII letters plus U+212A. Every other character, including one-to-one non-ASCII mappings such as É to é, is left unchanged.
- Text.Trim: strings are sequences of code points, so lengths count code points rather than UTF-16 units. The two differ only outside the Basic Multilingual Plane.
- Redeem.OnRedeem: the amount is taken as a JS number; conversion of the input field is not modelled.
