/** The role enumeration and the demo-wallet test of `config/roles.ts`. */
module Roles {
  import opened Wrappers
  import opened Text
  import opened Seqs

  /** The four roles; a value of this type is always one of them. */
  datatype Role = Public | Admin | Merchant | Beneficiary

  /** The roles in declaration order. */
  const AllRoles: seq<Role> := [Public, Admin, Merchant, Beneficiary]

  /** Every role is one of the four, each listed once. */
  lemma RolesAreClosed()
    ensures forall r: Role :: r in AllRoles
    ensures |AllRoles| == 4 && NoDuplicates(AllRoles)
  {
    forall r: Role
      ensures r in AllRoles
    {
      match r
      case Public => assert AllRoles[0] == r;
      case Admin => assert AllRoles[1] == r;
      case Merchant => assert AllRoles[2] == r;
      case Beneficiary => assert AllRoles[3] == r;
    }
    assert AllRoles == [Public] + [Admin, Merchant, Beneficiary];
    NoDuplicatesCons(Merchant, [Beneficiary]);
    NoDuplicatesCons(Admin, [Merchant, Beneficiary]);
    NoDuplicatesCons(Public, [Admin, Merchant, Beneficiary]);
  }

  /** The one address entitled to every role. */
  const DemoSuperWallet: string := "OE44RO4QS3A7HCLMJZZDV5TJ3T5Z6LOZSY3XYNDN3ZV7FC4GEZFJLOI45Y"

  /** The string a role is stored and selected as. */
  function RoleName(r: Role): (s: string)
    ensures ParseRole(s) == Some(r)
  {
    match r
    case Public => "public"
    case Admin => "admin"
    case Merchant => "merchant"
    case Beneficiary => "beneficiary"
  }

  /** The role a string names, if any: exactly the four role names are accepted. */
  function ParseRole(s: string): Option<Role> {
    if s == "public" then Some(Public)
    else if s == "admin" then Some(Admin)
    else if s == "merchant" then Some(Merchant)
    else if s == "beneficiary" then Some(Beneficiary)
    else None
  }

  /** Only the four role names parse, each to the role it names. */
  lemma ParseRoleOnlyNames(s: string)
    ensures ParseRole(s).Some? <==> s in {"public", "admin", "merchant", "beneficiary"}
    ensures ParseRole(s).Some? ==> RoleName(ParseRole(s).value) == s
  {
  }

  /** `isDemoSuperWallet`: a present, non-empty address whose trimmed, upper-cased form
      is the demo wallet. */
  function IsDemoSuperWallet(addr: Option<string>): (b: bool)
    ensures !Truthy(addr) ==> !b
    ensures b ==> |Trim(addr.value)| == |DemoSuperWallet| && IsTrimmed(Trim(addr.value))
  {
    Truthy(addr) && UppercasesToDemo(Trim(addr.value))
  }

  /** The comparison `isDemoSuperWallet` makes once the address is trimmed. */
  predicate UppercasesToDemo(t: string) {
    ToUpper(t) == DemoSuperWallet
  }

  /** `x` spells `y` with any of its letters possibly in lower case. */
  predicate IsCaseVariant(x: string, y: string) {
    |x| == |y| && forall i :: 0 <= i < |x| ==> x[i] == y[i] || x[i] == LowerChar(y[i])
  }

  predicate IsAscii(s: string) {
    forall i :: 0 <= i < |s| ==> s[i] < '\U{0080}'
  }

  predicate IsUpperOrDigit(c: char) {
    'A' <= c <= 'Z' || '0' <= c <= '9'
  }

  /** The demo wallet is written in upper-case letters and digits only. */
  lemma DemoWalletIsUpperOrDigit()
    ensures forall i :: 0 <= i < |DemoSuperWallet| ==> IsUpperOrDigit(DemoSuperWallet[i])
  {
    forall i | 0 <= i < |DemoSuperWallet|
      ensures IsUpperOrDigit(DemoSuperWallet[i])
    {
      if i < 29 {
        assert DemoSuperWallet[i] in "OE44RO4QS3A7HCLMJZZDV5TJ3T5Z6";
      } else {
        assert DemoSuperWallet[i] in "LOZSY3XYNDN3ZV7FC4GEZFJLOI45Y";
      }
    }
  }

  /** A string that upper-cases, character by character, onto a word of capitals and digits
      has no whitespace at either end, and `ToUpper` maps it onto that word. */
  lemma UpperVariant(x: string, w: string)
    requires |x| == |w|
    requires forall i :: 0 <= i < |w| ==> IsUpperOrDigit(w[i])
    requires forall i :: 0 <= i < |x| ==> UpperChar(x[i]) == w[i]
    ensures ToUpper(x) == w && IsTrimmed(x)
  {
    if |x| > 0 {
      assert IsUpperOrDigit(UpperChar(x[0]));
      assert IsUpperOrDigit(UpperChar(x[|x| - 1]));
    }
  }

  /** Every address that upper-cases onto the demo wallet is recognised, whatever
      whitespace surrounds it. */
  lemma UpperVariantRecognised(pre: string, x: string, post: string)
    requires AllWhitespace(pre) && AllWhitespace(post)
    requires |x| == |DemoSuperWallet|
    requires forall i :: 0 <= i < |x| ==> UpperChar(x[i]) == DemoSuperWallet[i]
    ensures IsDemoSuperWallet(Some(pre + x + post))
  {
    DemoWalletIsUpperOrDigit();
    UpperVariant(x, DemoSuperWallet);
    TrimPadded(pre, x, post);
    assert |pre + x + post| >= |x|;
  }

  /** A case variant of a word of capitals and digits upper-cases back onto it. */
  lemma CaseVariantUpper(x: string, w: string)
    requires forall i :: 0 <= i < |w| ==> IsUpperOrDigit(w[i])
    requires IsCaseVariant(x, w)
    ensures forall i :: 0 <= i < |x| ==> UpperChar(x[i]) == w[i]
  {
    forall i | 0 <= i < |x|
      ensures UpperChar(x[i]) == w[i]
    {
      assert IsUpperOrDigit(w[i]);
    }
  }

  /** An ASCII string that upper-cases onto a word of capitals and digits is a case
      variant of it. */
  lemma AsciiUpperIsCaseVariant(t: string, w: string)
    requires IsAscii(t)
    requires forall i :: 0 <= i < |w| ==> IsUpperOrDigit(w[i])
    requires ToUpper(t) == w
    ensures IsCaseVariant(t, w)
  {
    forall i | 0 <= i < |t|
      ensures t[i] == w[i] || t[i] == LowerChar(w[i])
    {
      assert UpperChar(t[i]) == w[i];
      assert IsUpperOrDigit(w[i]);
    }
  }

  /** Any mix of upper and lower case of the demo wallet, with any whitespace around it,
      is recognised. */
  lemma DemoWalletCaseInsensitive(pre: string, x: string, post: string)
    requires IsCaseVariant(x, DemoSuperWallet)
    requires AllWhitespace(pre) && AllWhitespace(post)
    ensures IsDemoSuperWallet(Some(pre + x + post))
  {
    DemoWalletIsUpperOrDigit();
    CaseVariantUpper(x, DemoSuperWallet);
    UpperVariantRecognised(pre, x, post);
  }

  /** Conversely, an ASCII address is recognised only if, once trimmed, it is a case
      variant of the demo wallet. */
  lemma DemoWalletOnlyCaseVariants(addr: string)
    requires IsAscii(Trim(addr))
    requires IsDemoSuperWallet(Some(addr))
    ensures IsCaseVariant(Trim(addr), DemoSuperWallet)
  {
    DemoWalletIsUpperOrDigit();
    AsciiUpperIsCaseVariant(Trim(addr), DemoSuperWallet);
  }

  /** Replacing an I of a word of capitals and digits by a dotless i still upper-cases
      onto the word. */
  lemma DotlessIUpper(w: string, k: nat)
    requires k < |w| && w[k] == 'I'
    requires forall i :: 0 <= i < |w| ==> IsUpperOrDigit(w[i])
    ensures forall i :: 0 <= i < |w| ==> UpperChar(w[k := '\U{0131}'][i]) == w[i]
  {
    forall i | 0 <= i < |w|
      ensures UpperChar(w[k := '\U{0131}'][i]) == w[i]
    {
      assert IsUpperOrDigit(w[i]);
    }
  }

  /** The case mapping is not ASCII-only: the dotless i upper-cases to I, so the demo
      wallet with its last I spelled as a dotless i is recognised too. */
  lemma DemoWalletAcceptsDotlessI()
    ensures IsDemoSuperWallet(Some(DemoSuperWallet[54 := '\U{0131}']))
  {
    var x := DemoSuperWallet[54 := '\U{0131}'];
    DemoWalletIsUpperOrDigit();
    assert DemoSuperWallet[54] == 'I';
    DotlessIUpper(DemoSuperWallet, 54);
    assert [] + x + [] == x;
    UpperVariantRecognised([], x, []);
  }

  /** An address of nothing but whitespace is never the demo wallet. */
  lemma BlankIsNotDemo(addr: string)
    requires AllWhitespace(addr)
    ensures !IsDemoSuperWallet(Some(addr))
  {
    TrimBlank(addr);
    assert |ToUpper(Trim(addr))| == 0;
  }

  /** Whitespace around an address never changes whether it is the demo wallet. */
  lemma DemoWalletIgnoresPadding(pre: string, addr: string, post: string)
    requires AllWhitespace(pre) && AllWhitespace(post)
    ensures IsDemoSuperWallet(Some(pre + addr + post)) == IsDemoSuperWallet(Some(addr))
  {
    if addr == "" {
      assert pre + addr + post == pre + post;
      AllWhitespaceAppend(pre, post);
      BlankIsNotDemo(pre + post);
    } else {
      TrimIgnoresPadding(pre, addr, post);
      assert Truthy(Some(pre + addr + post));
    }
  }
}
