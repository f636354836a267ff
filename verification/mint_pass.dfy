/** The mint action of `pages/MintPass.tsx`: the guards, the asset-create transaction, the
    signing and submission steps, and the bounded cache of minted asset ids. The ledger and
    the signer are parameters: each ledger call is the response it gave. */
module MintPass {
  import opened Wrappers
  import opened Text
  import opened Seqs
  import opened JsValues
  import opened Storage
  import opened Roles

  /** How many minted asset ids the cache keeps. */
  const CacheCap: nat := 20

  /** `saveMintedAssetId`: the new id first, then the earlier ids without repeats, cut to 20. */
  function SaveMintedAssetId(ids: seq<JsNumber>, assetId: JsNumber): (next: seq<JsNumber>)
    ensures |next| > 0 && next[0] == assetId
    ensures |next| <= CacheCap
    ensures NoDuplicates(next)
    ensures IsSubsequence(next[1..], ids)
    ensures forall x :: x in next ==> x == assetId || x in ids
  {
    SaveMintedAssetIdFacts(ids, assetId);
    Take(Dedup([assetId] + ids), CacheCap)
  }

  lemma SaveMintedAssetIdFacts(ids: seq<JsNumber>, assetId: JsNumber)
    ensures var next := Take(Dedup([assetId] + ids), CacheCap);
            && |next| > 0 && next[0] == assetId
            && NoDuplicates(next)
            && IsSubsequence(next[1..], ids)
            && forall x :: x in next ==> x == assetId || x in ids
  {
    var d := Dedup([assetId] + ids);
    DedupCons(assetId, ids);
    DedupFacts([assetId] + ids);
    PrefixNoDuplicates(d, |Take(d, CacheCap)|);
    DedupConsTakeTail(assetId, ids, CacheCap);
    SavedMembers(ids, assetId);
  }

  /** Saving brings in no id but the new one. */
  lemma SavedMembers(ids: seq<JsNumber>, assetId: JsNumber)
    ensures forall x :: x in Take(Dedup([assetId] + ids), CacheCap) ==> x == assetId || x in ids
  {
    var d := Dedup([assetId] + ids);
    DedupFacts([assetId] + ids);
    forall x | x in Take(d, CacheCap)
      ensures x == assetId || x in ids
    {
      assert x in d;
    }
  }

  /** On a cache without repeats, saving drops nothing but the earlier copy of the id and
      whatever falls past the 20th place: the survivors keep their order. */
  lemma SaveMintedAssetIdShifts(ids: seq<JsNumber>, assetId: JsNumber)
    requires NoDuplicates(ids)
    ensures SaveMintedAssetId(ids, assetId) == Take([assetId] + RemoveAll(ids, assetId), CacheCap)
  {
    DedupCons(assetId, ids);
    FilterNoDuplicates(ids, NotEqualTo(assetId));
    DedupOfDistinct(RemoveAll(ids, assetId));
  }

  /** Saving the same id twice in a row is saving it once. */
  lemma SaveMintedAssetIdIdempotent(ids: seq<JsNumber>, assetId: JsNumber)
    ensures SaveMintedAssetId(SaveMintedAssetId(ids, assetId), assetId) == SaveMintedAssetId(ids, assetId)
  {
    var r := SaveMintedAssetId(ids, assetId);
    var tail := r[1..];
    assert r == [assetId] + tail;
    assert NoDuplicates(tail);
    assert assetId !in tail;
    FilterAppend([assetId], tail, NotEqualTo(assetId));
    assert RemoveAll([assetId], assetId) == [];
    FilterKeepsAll(tail, NotEqualTo(assetId));
    assert RemoveAll(r, assetId) == tail;
    DedupCons(assetId, r);
    DedupOfDistinct(tail);
    assert Dedup([assetId] + r) == r;
  }

  /** `raw ? JSON.parse(raw) : []`, which is not guarded: text that does not parse, or a
      parsed value that cannot be spread into an array, makes the save throw. */
  function ReadCache(raw: Raw<JsNumber>): (ids: Option<seq<JsNumber>>)
    ensures ids.None? <==> raw.Malformed? || raw.NonArray?
    ensures raw.Missing? || raw.EmptyString? ==> ids == Some([])
    ensures raw.ArrayOf? ==> ids == Some(raw.items)
  {
    match raw
    case Missing => Some([])
    case EmptyString => Some([])
    case ArrayOf(items) => Some(items)
    case _ => None
  }

  /** The form fields. */
  datatype MintForm = MintForm(issuer: string, campaignId: string, maxMeals: JsNumber, expiryDate: string)

  /** The JSON document carried in the asset URL. */
  datatype Metadata = Metadata(
    name: string, description: string, issuer: string, campaignId: string,
    maxMeals: JsNumber, remainingMeals: JsNumber, expiryDate: string, redeemable: bool)

  /** The network parameters the ledger suggests; passed through untouched. */
  datatype SuggestedParams = SuggestedParams(fee: int, firstValid: int, lastValid: int, genesisId: string)

  /** An asset-create transaction. */
  datatype AssetCreateTxn = AssetCreateTxn(
    sender: string, total: int, decimals: int, defaultFrozen: bool,
    unitName: string, assetName: string, metadata: Metadata,
    manager: string, reserve: string, freeze: string, clawback: string,
    params: SuggestedParams)

  /** A transaction blob signed by the wallet. */
  datatype SignedTxn = SignedTxn(bytes: seq<bv8>)

  /** What `sendRawTransaction` gave: a thrown error, or a response that may lack `txid`. */
  datatype SendResponse = SendThrew | Sent(txid: Option<string>)

  /** The confirmed transaction as returned by the confirmation wait; the created asset's id
      sits under `assetIndex` or, in older responses, `asset-index`. */
  datatype Confirmation = Confirmation(assetIndex: Field, assetIndexDashed: Field)

  /** The ledger as seen by one mint attempt. `suggestedParams` is None when fetching them
      threw; `confirm` yields None when the wait threw (for instance, timed out). */
  datatype Ledger = Ledger(
    suggestedParams: Option<SuggestedParams>,
    send: seq<SignedTxn> -> SendResponse,
    confirm: string -> Option<Confirmation>)

  /** The wallet's `signTransactions`: None when it threw (the user declined or no wallet
      answered), otherwise one entry per transaction, None for each it did not sign. */
  type Signer = seq<AssetCreateTxn> -> Option<seq<Option<SignedTxn>>>

  datatype MintFailure =
    | ParamsUnavailable | SigningFailed | NoSignedTxn | SendFailed
    | TxIdMissing | ConfirmationFailed | AssetIdMissing | CacheUnreadable

  datatype MintOutcome =
    | NotConnected
    | NotAdmin
    | Failed(reason: MintFailure)
    | Minted(assetId: JsNumber, txId: string)

  /** One mint attempt: its outcome, the stored cache afterwards, the transaction it built
      (if it got that far) and the blobs it handed to `sendRawTransaction` (if any). */
  datatype MintRun = MintRun(
    outcome: MintOutcome, cache: Raw<JsNumber>,
    built: Option<AssetCreateTxn>, submitted: Option<seq<SignedTxn>>)

  const UnitName: string := "FOODPASS"
  const AssetNamePrefix: string := "FoodPass \U{2022} "

  function MetadataOf(form: MintForm): Metadata {
    Metadata("FoodPass NFT", "Digital food voucher for humanitarian aid",
             form.issuer, form.campaignId, form.maxMeals, form.maxMeals, form.expiryDate, true)
  }

  /** A single, indivisible, frozen-by-default voucher whose every authority is the minting
      address, carrying the form's data with all meals still available. */
  predicate IsVoucherCreation(txn: AssetCreateTxn, sender: string, form: MintForm) {
    && txn.total == 1 && txn.decimals == 0 && txn.defaultFrozen
    && txn.sender == sender && txn.manager == sender && txn.reserve == sender
    && txn.freeze == sender && txn.clawback == sender
    && txn.unitName == UnitName && txn.assetName == AssetNamePrefix + form.campaignId
    && txn.metadata.issuer == form.issuer && txn.metadata.campaignId == form.campaignId
    && txn.metadata.maxMeals == form.maxMeals && txn.metadata.remainingMeals == form.maxMeals
    && txn.metadata.expiryDate == form.expiryDate && txn.metadata.redeemable
  }

  /** `makeAssetCreateTxnWithSuggestedParamsFromObject` as the page calls it. */
  function BuildCreateTxn(sender: string, form: MintForm, sp: SuggestedParams): (txn: AssetCreateTxn)
    ensures IsVoucherCreation(txn, sender, form)
    ensures txn.params == sp
  {
    AssetCreateTxn(sender, 1, 0, true, UnitName, AssetNamePrefix + form.campaignId, MetadataOf(form),
                   sender, sender, sender, sender, sp)
  }

  /** How many entries the wallet actually signed. */
  function SignedCount(sigs: seq<Option<SignedTxn>>): nat {
    if sigs == [] then 0 else (if sigs[0].Some? then 1 else 0) + SignedCount(sigs[1..])
  }

  /** `signedMaybe.filter(b => b !== null)`: one blob per signed entry. */
  function SignedOnly(sigs: seq<Option<SignedTxn>>): (r: seq<SignedTxn>)
    ensures |r| == SignedCount(sigs) <= |sigs|
    ensures forall b :: b in r <==> Some(b) in sigs
    ensures r == [] <==> forall i :: 0 <= i < |sigs| ==> sigs[i].None?
  {
    if sigs == [] then []
    else
      var rest := SignedOnly(sigs[1..]);
      assert forall i :: 1 <= i < |sigs| ==> sigs[i] == sigs[1..][i - 1];
      match sigs[0]
      case Some(b) => [b] + rest
      case None => rest
  }

  /** The signed entry at `i` is the blob after those signed before it. */
  lemma {:induction false} SignedOnlyAt(sigs: seq<Option<SignedTxn>>, i: nat)
    requires i < |sigs| && sigs[i].Some?
    ensures SignedCount(sigs[..i]) < |SignedOnly(sigs)|
    ensures SignedOnly(sigs)[SignedCount(sigs[..i])] == sigs[i].value
    decreases i
  {
    var tail := sigs[1..];
    var head := if sigs[0].Some? then [sigs[0].value] else [];
    assert SignedOnly(sigs) == head + SignedOnly(tail);
    if i == 0 {
      assert sigs[..0] == [];
    } else {
      SignedOnlyAt(tail, i - 1);
      var pre := sigs[..i];
      assert pre[0] == sigs[0] && pre[1..] == tail[..i - 1];
      assert SignedCount(pre) == |head| + SignedCount(tail[..i - 1]);
      assert tail[i - 1] == sigs[i];
    }
  }

  /** The blobs keep the wallet's order: the entry at `i`, when signed, is the blob after
      those signed before it. */
  lemma SignedOnlyKeepsOrder(sigs: seq<Option<SignedTxn>>)
    ensures forall i :: 0 <= i < |sigs| && sigs[i].Some? ==>
              SignedCount(sigs[..i]) < |SignedOnly(sigs)| && SignedOnly(sigs)[SignedCount(sigs[..i])] == sigs[i].value
  {
    forall i | 0 <= i < |sigs| && sigs[i].Some?
      ensures SignedCount(sigs[..i]) < |SignedOnly(sigs)|
      ensures SignedOnly(sigs)[SignedCount(sigs[..i])] == sigs[i].value
    {
      SignedOnlyAt(sigs, i);
    }
  }

  /** The created asset's id: `Number(confirmed.assetIndex ?? confirmed['asset-index'])`. */
  function AssetIdOf(c: Confirmation): (id: JsNumber)
    ensures c.assetIndex.Num? ==> id == c.assetIndex.n
    ensures !IsTruthy(id) <==> if c.assetIndex.Num? then FalsyField(c.assetIndex) else FalsyField(c.assetIndexDashed)
  {
    ToNumber(Coalesce(c.assetIndex, c.assetIndexDashed))
  }

  /** `doMint`. */
  function DoMint(activeAddress: Option<string>, role: Role, form: MintForm,
                  ledger: Ledger, signer: Signer, cache: Raw<JsNumber>): (run: MintRun)
    ensures !Truthy(activeAddress) ==> run == MintRun(NotConnected, cache, None, None)
    ensures Truthy(activeAddress) && role != Admin ==> run == MintRun(NotAdmin, cache, None, None)
    ensures run.built.Some? ==>
              Truthy(activeAddress) && role == Admin && ledger.suggestedParams.Some?
              && IsVoucherCreation(run.built.value, activeAddress.value, form)
    ensures run.submitted.Some? ==>
              run.built.Some? && signer([run.built.value]).Some?
              && run.submitted.value == SignedOnly(signer([run.built.value]).value)
              && run.submitted.value != []
    ensures run.outcome.Minted? ==>
              && run.submitted.Some?
              && IsTruthy(run.outcome.assetId) && run.outcome.txId != ""
              && ReadCache(cache).Some?
              && run.cache == ArrayOf(SaveMintedAssetId(ReadCache(cache).value, run.outcome.assetId))
              && ledger.send(run.submitted.value) == Sent(Some(run.outcome.txId))
              && ledger.confirm(run.outcome.txId).Some?
              && run.outcome.assetId == AssetIdOf(ledger.confirm(run.outcome.txId).value)
    ensures !run.outcome.Minted? ==> run.cache == cache
  {
    if !Truthy(activeAddress) then MintRun(NotConnected, cache, None, None)
    else if role != Admin then MintRun(NotAdmin, cache, None, None)
    else match ledger.suggestedParams
      case None => MintRun(Failed(ParamsUnavailable), cache, None, None)
      case Some(sp) =>
        var txn := BuildCreateTxn(activeAddress.value, form, sp);
        match signer([txn])
        case None => MintRun(Failed(SigningFailed), cache, Some(txn), None)
        case Some(sigs) =>
          var signed := SignedOnly(sigs);
          if signed == [] then MintRun(Failed(NoSignedTxn), cache, Some(txn), None)
          else match ledger.send(signed)
            case SendThrew => MintRun(Failed(SendFailed), cache, Some(txn), Some(signed))
            case Sent(txid) =>
              if !Truthy(txid) then MintRun(Failed(TxIdMissing), cache, Some(txn), Some(signed))
              else match ledger.confirm(txid.value)
                case None => MintRun(Failed(ConfirmationFailed), cache, Some(txn), Some(signed))
                case Some(confirmed) =>
                  var assetId := AssetIdOf(confirmed);
                  if !IsTruthy(assetId) then MintRun(Failed(AssetIdMissing), cache, Some(txn), Some(signed))
                  else match ReadCache(cache)
                    case None => MintRun(Failed(CacheUnreadable), cache, Some(txn), Some(signed))
                    case Some(ids) =>
                      MintRun(Minted(assetId, txid.value), ArrayOf(SaveMintedAssetId(ids, assetId)),
                              Some(txn), Some(signed))
  }

  /** Without a connected wallet, or without the admin role, the attempt stops before any
      ledger or wallet call: its result does not depend on what they would answer. */
  lemma BlockedMintCallsNothing(activeAddress: Option<string>, role: Role, form: MintForm,
                                ledger1: Ledger, signer1: Signer, ledger2: Ledger, signer2: Signer,
                                cache: Raw<JsNumber>)
    requires !Truthy(activeAddress) || role != Admin
    ensures DoMint(activeAddress, role, form, ledger1, signer1, cache)
            == DoMint(activeAddress, role, form, ledger2, signer2, cache)
  {
  }

  /** A wallet that answers with nothing but nulls fails the attempt and nothing is sent. */
  lemma AllUnsignedSendsNothing(activeAddress: Option<string>, form: MintForm, ledger: Ledger,
                                signer: Signer, cache: Raw<JsNumber>)
    requires Truthy(activeAddress) && ledger.suggestedParams.Some?
    requires var txn := BuildCreateTxn(activeAddress.value, form, ledger.suggestedParams.value);
             signer([txn]).Some? && forall i :: 0 <= i < |signer([txn]).value| ==> signer([txn]).value[i].None?
    ensures var run := DoMint(activeAddress, Admin, form, ledger, signer, cache);
            run.outcome == Failed(NoSignedTxn) && run.submitted.None? && run.cache == cache
  {
  }

  /** The attempt got as far as sending: a connected wallet, parameters, at least one signed
      blob, and `sendRawTransaction` answered `sent`. */
  predicate SendsAndGets(activeAddress: Option<string>, form: MintForm, ledger: Ledger,
                         signer: Signer, sent: SendResponse) {
    && Truthy(activeAddress) && ledger.suggestedParams.Some?
    && var txn := BuildCreateTxn(activeAddress.value, form, ledger.suggestedParams.value);
       && signer([txn]).Some? && SignedOnly(signer([txn]).value) != []
       && ledger.send(SignedOnly(signer([txn]).value)) == sent
  }

  /** A send response without a transaction id, or with an empty one, fails the attempt
      before any confirmation wait and leaves the cache as it was. */
  lemma MissingTxIdFails(activeAddress: Option<string>, form: MintForm, ledger: Ledger,
                         signer: Signer, cache: Raw<JsNumber>, txid: Option<string>)
    requires !Truthy(txid) && SendsAndGets(activeAddress, form, ledger, signer, Sent(txid))
    ensures var run := DoMint(activeAddress, Admin, form, ledger, signer, cache);
            run.outcome == Failed(TxIdMissing) && run.cache == cache
  {
  }

  /** A field whose number is falsy: missing (NaN), null (zero), NaN or zero. */
  predicate FalsyField(f: Field) {
    f.Undefined? || f.Null? || f == Num(NaN) || f == Num(Finite(0.0))
  }

  /** A confirmation whose asset id converts to NaN or zero fails the attempt and leaves the
      cache as it was. */
  lemma FalsyAssetIdFails(activeAddress: Option<string>, form: MintForm, ledger: Ledger,
                          signer: Signer, cache: Raw<JsNumber>, t: string, c: Confirmation)
    requires t != "" && SendsAndGets(activeAddress, form, ledger, signer, Sent(Some(t)))
    requires ledger.confirm(t) == Some(c) && !IsTruthy(AssetIdOf(c))
    ensures var run := DoMint(activeAddress, Admin, form, ledger, signer, cache);
            run.outcome == Failed(AssetIdMissing) && run.cache == cache
  {
  }

  /** When every step succeeds the attempt reports the confirmed asset id under the sent
      transaction id, and puts that id first in the readable cache. */
  lemma SuccessfulStepsMint(activeAddress: Option<string>, form: MintForm, ledger: Ledger,
                            signer: Signer, cache: Raw<JsNumber>, t: string, c: Confirmation,
                            ids: seq<JsNumber>)
    requires t != "" && SendsAndGets(activeAddress, form, ledger, signer, Sent(Some(t)))
    requires ledger.confirm(t) == Some(c) && IsTruthy(AssetIdOf(c))
    requires ReadCache(cache) == Some(ids)
    ensures var run := DoMint(activeAddress, Admin, form, ledger, signer, cache);
            && run.outcome == Minted(AssetIdOf(c), t)
            && run.cache == ArrayOf(SaveMintedAssetId(ids, AssetIdOf(c)))
            && ReadCache(run.cache).Some? && ReadCache(run.cache).value[0] == AssetIdOf(c)
  {
  }

  /** A confirmed mint is still reported as a failure, with the cache untouched, when the
      stored cache cannot be read: the cache read is the one unguarded parse on this path. */
  lemma UnreadableCacheHidesMint(activeAddress: Option<string>, form: MintForm, ledger: Ledger,
                                 signer: Signer, cache: Raw<JsNumber>)
    requires Truthy(activeAddress) && cache.Malformed?
    ensures DoMint(activeAddress, Admin, form, ledger, signer, cache).outcome.Failed?
    ensures DoMint(activeAddress, Admin, form, ledger, signer, cache).cache == cache
  {
  }
}
