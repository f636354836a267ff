/** The merchant directory of `pages/Merchants.tsx`: admin-only add and remove over a list
    whose addresses are kept distinct. */
module Merchants {
  import opened Wrappers
  import opened Text
  import opened Seqs
  import opened Roles
  import opened Address

  datatype MerchantEntry = MerchantEntry(addr: string, name: Option<string>)

  /** No address is listed twice. */
  predicate DistinctAddrs(list: seq<MerchantEntry>) {
    forall i, j :: 0 <= i < j < |list| ==> list[i].addr != list[j].addr
  }

  /** `list.some(m => m.addr === a)`. */
  predicate Listed(list: seq<MerchantEntry>, a: string) {
    exists i :: 0 <= i < |list| && list[i].addr == a
  }

  datatype AddOutcome = AddNotAdmin | BlankAddress | InvalidAddress | AlreadyListed | Added
  datatype RemoveOutcome = RemoveNotAdmin | Removed

  datatype AddRun = AddRun(outcome: AddOutcome, list: seq<MerchantEntry>)
  datatype RemoveRun = RemoveRun(outcome: RemoveOutcome, list: seq<MerchantEntry>)

  lemma DistinctAddrsCons(m: MerchantEntry, list: seq<MerchantEntry>)
    requires DistinctAddrs(list) && !Listed(list, m.addr)
    ensures DistinctAddrs([m] + list)
  {
    var l := [m] + list;
    forall i, j | 0 <= i < j < |l|
      ensures l[i].addr != l[j].addr
    {
      assert l[j] == list[j - 1];
      if i > 0 { assert l[i] == list[i - 1]; }
    }
  }

  /** `onAdd`: checked in order role, blank address, address length, duplicate; a new
      merchant goes first, under its trimmed address and trimmed name. */
  function OnAdd(role: Role, addrInput: string, nameInput: string, list: seq<MerchantEntry>): (run: AddRun)
    ensures !run.outcome.Added? ==> run.list == list
    ensures role != Admin ==> run.outcome == AddNotAdmin
    ensures role == Admin && AllWhitespace(addrInput) ==> run.outcome == BlankAddress
    ensures role == Admin && !AllWhitespace(addrInput) && !IsValidAddr(addrInput) ==>
              run.outcome == InvalidAddress
    ensures role == Admin && IsValidAddr(addrInput) && Listed(list, Trim(addrInput)) ==>
              run.outcome == AlreadyListed
    ensures run.outcome.Added? <==> role == Admin && IsValidAddr(addrInput) && !Listed(list, Trim(addrInput))
    ensures run.outcome.Added? ==>
              && run.list == [MerchantEntry(Trim(addrInput), NonBlankTrimmed(nameInput))] + list
              && |run.list| == |list| + 1
              && IsTrimmed(run.list[0].addr)
    ensures DistinctAddrs(list) ==> DistinctAddrs(run.list)
  {
    var a := Trim(addrInput);
    TrimBlank(addrInput);
    if role != Admin then AddRun(AddNotAdmin, list)
    else if a == "" then AddRun(BlankAddress, list)
    else if !IsValidAddr(addrInput) then AddRun(InvalidAddress, list)
    else if Listed(list, a) then AddRun(AlreadyListed, list)
    else
      var m := MerchantEntry(a, NonBlankTrimmed(nameInput));
      assert DistinctAddrs(list) ==> DistinctAddrs([m] + list) by {
        if DistinctAddrs(list) { DistinctAddrsCons(m, list); }
      }
      AddRun(Added, [m] + list)
  }

  function AddrIsNot(a: string): MerchantEntry -> bool {
    (m: MerchantEntry) => m.addr != a
  }

  lemma {:induction false} FilterKeepsDistinctAddrs(list: seq<MerchantEntry>, keep: MerchantEntry -> bool)
    requires DistinctAddrs(list)
    ensures DistinctAddrs(Filter(list, keep))
    decreases |list|
  {
    if list != [] {
      var rest := list[1..];
      assert DistinctAddrs(rest) by {
        forall i, j | 0 <= i < j < |rest|
          ensures rest[i].addr != rest[j].addr
        {
          assert rest[i] == list[i + 1] && rest[j] == list[j + 1];
        }
      }
      FilterKeepsDistinctAddrs(rest, keep);
      if keep(list[0]) {
        var f := Filter(rest, keep);
        assert !Listed(f, list[0].addr) by {
          forall i | 0 <= i < |f|
            ensures f[i].addr != list[0].addr
          {
            assert f[i] in rest;
            var j :| 0 <= j < |rest| && rest[j] == f[i];
            assert list[j + 1] == f[i];
          }
        }
        DistinctAddrsCons(list[0], f);
      }
    }
  }

  /** `onRemove(a)`: an admin drops every entry under address `a` and keeps every other entry,
      every copy of it, in order. */
  function OnRemove(role: Role, a: string, list: seq<MerchantEntry>): (run: RemoveRun)
    ensures role != Admin ==> run == RemoveRun(RemoveNotAdmin, list)
    ensures role == Admin ==>
              && run.outcome == Removed
              && (forall m :: m in run.list <==> m in list && m.addr != a)
              && IsSubsequence(run.list, list)
              && forall m :: multiset(run.list)[m] == if m.addr != a then multiset(list)[m] else 0
    ensures DistinctAddrs(list) ==> DistinctAddrs(run.list)
  {
    if role != Admin then RemoveRun(RemoveNotAdmin, list)
    else
      var next := Filter(list, AddrIsNot(a));
      FilterIsSubsequence(list, AddrIsNot(a));
      FilterMultiset(list, AddrIsNot(a));
      assert DistinctAddrs(list) ==> DistinctAddrs(next) by {
        if DistinctAddrs(list) { FilterKeepsDistinctAddrs(list, AddrIsNot(a)); }
      }
      RemoveRun(Removed, next)
  }

  /** Adding a merchant and then removing it restores the directory. */
  lemma AddThenRemoveRestores(addrInput: string, nameInput: string, list: seq<MerchantEntry>)
    requires OnAdd(Admin, addrInput, nameInput, list).outcome.Added?
    ensures OnRemove(Admin, Trim(addrInput), OnAdd(Admin, addrInput, nameInput, list).list).list == list
  {
    var a := Trim(addrInput);
    var m := MerchantEntry(a, NonBlankTrimmed(nameInput));
    assert forall x :: x in list ==> x.addr != a by {
      forall x | x in list
        ensures x.addr != a
      {
        var i :| 0 <= i < |list| && list[i] == x;
      }
    }
    FilterAppend([m], list, AddrIsNot(a));
    assert Filter([m], AddrIsNot(a)) == [];
    FilterKeepsAll(list, AddrIsNot(a));
  }

  /** The same address cannot be added twice: the second attempt is refused as a duplicate
      and leaves the directory as the first left it. */
  lemma AddTwiceRefused(addrInput: string, name1: string, name2: string, list: seq<MerchantEntry>)
    requires OnAdd(Admin, addrInput, name1, list).outcome.Added?
    ensures var once := OnAdd(Admin, addrInput, name1, list).list;
            OnAdd(Admin, addrInput, name2, once) == AddRun(AlreadyListed, once)
  {
    var once := OnAdd(Admin, addrInput, name1, list).list;
    assert once[0].addr == Trim(addrInput);
    TrimBlank(addrInput);
  }
}
