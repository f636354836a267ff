/** The redeem action of `pages/Redeem.tsx`: its guards, the record it builds, and the
    bounded, newest-first redemption log. The clock and the id generator are inputs. */
module Redeem {
  import opened Wrappers
  import opened Text
  import opened Seqs
  import opened JsValues
  import opened Storage
  import opened Roles
  import opened Address

  /** How many redemptions the log keeps. */
  const LogCap: nat := 100

  datatype Redemption = Redemption(
    id: string, date: string, merchant: string, beneficiary: string,
    amount: JsNumber, note: Option<string>)

  /** The form fields. */
  datatype RedeemForm = RedeemForm(beneficiary: string, amount: JsNumber, note: string)

  datatype RedeemOutcome =
    | NotConnected
    | NotMerchant
    | BlankBeneficiary
    | InvalidBeneficiary
    | InvalidAmount
    | Recorded(record: Redemption)

  /** One attempt: its outcome and the stored log afterwards. */
  datatype RedeemRun = RedeemRun(outcome: RedeemOutcome, log: Raw<Redemption>)

  /** `loadRedemptions`: the stored log, or the empty log when there is none, it does not
      parse, or it is not an array. */
  function LoadRedemptions(raw: Raw<Redemption>): (log: seq<Redemption>)
    ensures raw.Missing? || raw.EmptyString? || raw.Malformed? || raw.NonArray? ==> log == []
    ensures raw.ArrayOf? ==> log == raw.items
  {
    LoadArray(raw)
  }

  /** `[r, ...log].slice(0, 100)`: the new record first, the earlier ones after it in their
      order, and only the oldest dropped when the log is full. */
  function PrependRecord(log: seq<Redemption>, r: Redemption): (next: seq<Redemption>)
    ensures |next| == if |log| < LogCap then |log| + 1 else LogCap
    ensures next[0] == r
    ensures next[1..] == log[..|next| - 1]
  {
    var next := Take([r] + log, LogCap);
    assert next[1..] == ([r] + log)[1..|next|];
    next
  }

  /** `onRedeem`. */
  function OnRedeem(activeAddress: Option<string>, role: Role, form: RedeemForm,
                    id: string, date: string, stored: Raw<Redemption>): (run: RedeemRun)
    ensures !run.outcome.Recorded? ==> run.log == stored
    ensures !Truthy(activeAddress) ==> run.outcome == NotConnected
    ensures Truthy(activeAddress) && role != Merchant ==> run.outcome == NotMerchant
    ensures Truthy(activeAddress) && role == Merchant && AllWhitespace(form.beneficiary) ==>
              run.outcome == BlankBeneficiary
    ensures (Truthy(activeAddress) && role == Merchant && !AllWhitespace(form.beneficiary)
             && !IsValidAddr(form.beneficiary)) ==> run.outcome == InvalidBeneficiary
    ensures (Truthy(activeAddress) && role == Merchant && IsValidAddr(form.beneficiary)
             && !IsPositiveFinite(form.amount)) ==> run.outcome == InvalidAmount
    ensures run.outcome.Recorded? ==>
              var r := run.outcome.record;
              && Truthy(activeAddress) && role == Merchant
              && r.id == id && r.date == date
              && r.merchant == activeAddress.value
              && r.beneficiary == Trim(form.beneficiary) && IsTrimmed(r.beneficiary)
              && MinAddrLength <= |r.beneficiary| <= MaxAddrLength
              && r.amount == form.amount && IsPositiveFinite(r.amount)
              && r.note == NonBlankTrimmed(form.note)
              && run.log.ArrayOf?
              && run.log.items == PrependRecord(LoadRedemptions(stored), r)
  {
    TrimBlank(form.beneficiary);
    if !Truthy(activeAddress) then RedeemRun(NotConnected, stored)
    else if role != Merchant then RedeemRun(NotMerchant, stored)
    else if Trim(form.beneficiary) == "" then RedeemRun(BlankBeneficiary, stored)
    else if !IsValidAddr(form.beneficiary) then RedeemRun(InvalidBeneficiary, stored)
    else if !IsPositiveFinite(form.amount) then RedeemRun(InvalidAmount, stored)
    else
      var r := Redemption(id, date, activeAddress.value, Trim(form.beneficiary), form.amount,
                          NonBlankTrimmed(form.note));
      RedeemRun(Recorded(r), ArrayOf(PrependRecord(LoadRedemptions(stored), r)))
  }

  /** A recorded redemption can be read back first from the log, followed by the entries
      stored before it, newest first, the log never exceeding 100 entries. */
  lemma RecordedComesFirst(activeAddress: Option<string>, role: Role, form: RedeemForm,
                           id: string, date: string, stored: Raw<Redemption>)
    requires OnRedeem(activeAddress, role, form, id, date, stored).outcome.Recorded?
    ensures var run := OnRedeem(activeAddress, role, form, id, date, stored);
            var log := LoadRedemptions(run.log);
            && |log| > 0 && log[0] == run.outcome.record && |log| <= LogCap
            && log[1..] == LoadRedemptions(stored)[..|log| - 1]
  {
    var run := OnRedeem(activeAddress, role, form, id, date, stored);
    PrependedLogReadsBack(LoadRedemptions(stored), run.outcome.record);
  }

  /** A log saved with a record prepended reads back with that record first. */
  lemma PrependedLogReadsBack(log: seq<Redemption>, r: Redemption)
    ensures var back := LoadRedemptions(ArrayOf(PrependRecord(log, r)));
            && |back| > 0 && back[0] == r && |back| <= LogCap
            && back[1..] == log[..|back| - 1]
  {
  }

  /** A merchant with a connected wallet, a valid beneficiary and a positive amount always
      gets the redemption recorded. */
  lemma ValidRedeemIsRecorded(activeAddress: Option<string>, form: RedeemForm,
                              id: string, date: string, stored: Raw<Redemption>)
    requires Truthy(activeAddress) && IsValidAddr(form.beneficiary) && IsPositiveFinite(form.amount)
    ensures OnRedeem(activeAddress, Merchant, form, id, date, stored).outcome.Recorded?
  {
    TrimBlank(form.beneficiary);
  }
}
