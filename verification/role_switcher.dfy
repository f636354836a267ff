/** The role selector of `components/RoleSwitcher.tsx`: which roles a connected address may
    pick, how a pick is written to the role store, and how a stored role that is no longer
    allowed is healed back to `public`. */
module RoleSwitcher {
  import opened Wrappers
  import opened Text
  import opened Seqs
  import opened Roles

  /** The single-cell role store. `writes` counts `setRole` calls; each one persists the role
      and emits one role-changed event, whether or not the value changed. */
  datatype RoleStore = RoleStore(role: Role, writes: nat)

  /** The store before anything was persisted holds `public`. */
  const InitialStore: RoleStore := RoleStore(Public, 0)

  /** `setRole(r)`: an unconditional write. */
  function SetRole(store: RoleStore, r: Role): (s: RoleStore)
    ensures s.role == r && s.writes == store.writes + 1
  {
    RoleStore(r, store.writes + 1)
  }

  /** `getAllowedRoles`: every role for the demo wallet, only `public` for anyone else,
      including nobody. `public` is always allowed, and listed first. */
  function AllowedRoles(activeAddress: Option<string>): (allowed: seq<Role>)
    ensures |allowed| > 0 && allowed[0] == Public
    ensures forall r :: r in allowed <==> r == Public || IsDemoSuperWallet(activeAddress)
    ensures NoDuplicates(allowed)
  {
    if !Truthy(activeAddress) then [Public]
    else if IsDemoSuperWallet(activeAddress) then
      RolesAreClosed();
      AllRoles
    else [Public]
  }

  /** No connected address, or any address but the demo wallet, gets exactly `['public']`;
      the demo wallet gets all four roles in declaration order. */
  lemma AllowedRolesCases(activeAddress: Option<string>)
    ensures !IsDemoSuperWallet(activeAddress) ==> AllowedRoles(activeAddress) == [Public]
    ensures IsDemoSuperWallet(activeAddress) ==> AllowedRoles(activeAddress) == AllRoles
  {
  }

  /** The selector is greyed out when there is nothing to choose. */
  predicate Disabled(allowed: seq<Role>) {
    |allowed| == 1
  }

  /** The selector is disabled exactly for addresses other than the demo wallet. */
  lemma DisabledUnlessDemo(activeAddress: Option<string>)
    ensures Disabled(AllowedRoles(activeAddress)) <==> !IsDemoSuperWallet(activeAddress)
  {
    var allowed := AllowedRoles(activeAddress);
    if IsDemoSuperWallet(activeAddress) {
      assert Admin in allowed && allowed[0] == Public;
    }
  }

  /** The error toast a pick raises, if any. */
  datatype RoleToast = NoToast | ConnectWalletFirst | NotAuthorizedForRole

  /** A pick's effect: the toast shown and the store afterwards. */
  datatype RoleChange = RoleChange(toast: RoleToast, store: RoleStore)

  /** `onChange(next)`: the pick is stored if a wallet is connected and may take it;
      otherwise an error toast says why and the store is reset to `public`. Every path
      writes once. */
  function OnChange(store: RoleStore, activeAddress: Option<string>, next: Role): (ch: RoleChange)
    ensures ch.store.role in AllowedRoles(activeAddress)
    ensures ch.toast == ConnectWalletFirst <==> !Truthy(activeAddress)
    ensures ch.toast == NotAuthorizedForRole <==> Truthy(activeAddress) && next !in AllowedRoles(activeAddress)
    ensures ch.toast == NoToast <==> Truthy(activeAddress) && ch.store.role == next
    ensures ch.toast != NoToast ==> ch.store.role == Public
    ensures ch.store.role == next <==> next == Public || (Truthy(activeAddress) && next in AllowedRoles(activeAddress))
    ensures ch.store.writes == store.writes + 1
  {
    var allowed := AllowedRoles(activeAddress);
    if !Truthy(activeAddress) then RoleChange(ConnectWalletFirst, SetRole(store, Public))
    else if next !in allowed then RoleChange(NotAuthorizedForRole, SetRole(store, Public))
    else RoleChange(NoToast, SetRole(store, next))
  }

  /** What the selector shows, and the store after rendering it. */
  datatype Selection = Selection(shown: Role, store: RoleStore)

  /** The `safeRole` correction: a stored role the address may hold is shown as is and
      nothing is written; any other is shown as `public` and the store is reset to it. */
  function SafeRole(store: RoleStore, activeAddress: Option<string>): (sel: Selection)
    ensures sel.shown in AllowedRoles(activeAddress) && sel.store.role == sel.shown
    ensures store.role in AllowedRoles(activeAddress) ==> sel == Selection(store.role, store)
    ensures store.role !in AllowedRoles(activeAddress) ==>
              sel.shown == Public && sel.store.writes == store.writes + 1
  {
    var allowed := AllowedRoles(activeAddress);
    var safe := if store.role in allowed then store.role else Public;
    if safe != store.role then Selection(safe, SetRole(store, Public))
    else Selection(safe, store)
  }

  /** The first render, before anything was persisted, shows `public` and writes nothing,
      whoever is connected. */
  lemma InitialRenderWritesNothing(activeAddress: Option<string>)
    ensures SafeRole(InitialStore, activeAddress) == Selection(Public, InitialStore)
  {
  }

  /** Rendering again after a correction writes nothing more. */
  lemma SafeRoleIdempotent(store: RoleStore, activeAddress: Option<string>)
    ensures var healed := SafeRole(store, activeAddress).store;
            SafeRole(healed, activeAddress) == Selection(healed.role, healed)
  {
  }

  /** Whatever the store held, after the selector renders a non-demo address is `public`. */
  lemma SafeRoleHealsToPublic(store: RoleStore, activeAddress: Option<string>)
    requires !IsDemoSuperWallet(activeAddress)
    ensures SafeRole(store, activeAddress).store.role == Public
  {
  }
}
