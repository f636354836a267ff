/** The role-gated menu of `components/Navbar.tsx`. */
module Navbar {
  import opened Wrappers
  import opened Seqs
  import opened Roles

  /** A menu entry; `roles` absent means it is shown to everyone. */
  datatype NavItem = NavItem(to: string, title: string, roles: Option<seq<Role>>)

  const Always: seq<NavItem> := [
    NavItem("/", "Home", None),
    NavItem("/transparency", "Transparency", None),
    NavItem("/docs", "Docs", None)
  ]

  const AdminOnly: seq<NavItem> := [
    NavItem("/dashboard", "Dashboard", Some([Admin])),
    NavItem("/mint", "Mint Pass", Some([Admin])),
    NavItem("/merchants", "Merchants", Some([Admin]))
  ]

  const MerchantOnly: seq<NavItem> := [NavItem("/redeem", "Redeem", Some([Merchant]))]

  const BeneficiaryOnly: seq<NavItem> := [NavItem("/mypass", "My FoodPass", Some([Beneficiary]))]

  /** Every entry, in menu order. */
  const RoleNav: seq<NavItem> := Always + AdminOnly + MerchantOnly + BeneficiaryOnly

  /** The `allNav` filter test: ungated entries always pass, gated ones when they list the role. */
  predicate Visible(role: Role, item: NavItem) {
    item.roles.None? || role in item.roles.value
  }

  function VisibleTo(role: Role): NavItem -> bool {
    (item: NavItem) => Visible(role, item)
  }

  /** `allNav`: the entries the role may see, in menu order. */
  function AllNav(role: Role): (nav: seq<NavItem>)
    ensures IsSubsequence(nav, RoleNav)
    ensures forall item :: item in nav <==> item in RoleNav && Visible(role, item)
  {
    FilterIsSubsequence(RoleNav, VisibleTo(role));
    Filter(RoleNav, VisibleTo(role))
  }

  /** `effectiveNav`: a role the address may not hold sees only the ungated entries. */
  function EffectiveNav(allowed: seq<Role>, role: Role): (nav: seq<NavItem>)
    ensures role !in allowed ==> nav == Always
    ensures role in allowed ==> nav == AllNav(role)
    ensures Always <= nav
    ensures IsSubsequence(nav, RoleNav)
  {
    AlwaysLeadsAllNav(role);
    if role !in allowed then
      PrefixIsSubsequence(Always, AdminOnly + MerchantOnly + BeneficiaryOnly);
      assert RoleNav == Always + (AdminOnly + MerchantOnly + BeneficiaryOnly);
      Always
    else
      AllNav(role)
  }

  /** `allNav` filters each block of the menu separately. */
  lemma AllNavByBlock(role: Role)
    ensures AllNav(role) == Always + Filter(AdminOnly, VisibleTo(role))
                            + Filter(MerchantOnly, VisibleTo(role)) + Filter(BeneficiaryOnly, VisibleTo(role))
  {
    var f := VisibleTo(role);
    FilterAppend(Always + AdminOnly + MerchantOnly, BeneficiaryOnly, f);
    FilterAppend(Always + AdminOnly, MerchantOnly, f);
    FilterAppend(Always, AdminOnly, f);
    FilterKeepsAll(Always, f);
  }

  /** The block of entries gated to `role` itself; `public` has none. */
  function OwnBlock(role: Role): seq<NavItem> {
    match role
    case Public => []
    case Admin => AdminOnly
    case Merchant => MerchantOnly
    case Beneficiary => BeneficiaryOnly
  }

  /** The menu each role sees: the ungated entries followed by exactly the role's own
      block, since every gated entry lists one role only. */
  lemma AllNavIsOwnBlock(role: Role)
    ensures AllNav(role) == Always + OwnBlock(role)
  {
    FilterBlocks(Always, AdminOnly, MerchantOnly, BeneficiaryOnly, VisibleTo(role),
                 role == Admin, role == Merchant, role == Beneficiary);
  }

  /** The four menus spelled out: `public` gets only Home, Transparency and Docs. */
  lemma AllNavByRole()
    ensures AllNav(Public) == Always
    ensures AllNav(Admin) == Always + AdminOnly
    ensures AllNav(Merchant) == Always + MerchantOnly
    ensures AllNav(Beneficiary) == Always + BeneficiaryOnly
  {
    AllNavIsOwnBlock(Public);
    assert Always + [] == Always;
    AllNavIsOwnBlock(Admin);
    AllNavIsOwnBlock(Merchant);
    AllNavIsOwnBlock(Beneficiary);
  }

  /** For every role the ungated entries come first in `allNav`. */
  lemma AlwaysLeadsAllNav(role: Role)
    ensures Always <= AllNav(role)
  {
    var f := VisibleTo(role);
    assert RoleNav == Always + (AdminOnly + MerchantOnly + BeneficiaryOnly);
    FilterAppend(Always, AdminOnly + MerchantOnly + BeneficiaryOnly, f);
    FilterKeepsAll(Always, f);
  }
}
