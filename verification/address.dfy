/** The beneficiary and merchant address check shared by `pages/Redeem.tsx` and
    `pages/Merchants.tsx`: a trimmed length between 40 and 64. */
module Address {
  import opened Text

  const MinAddrLength: nat := 40
  const MaxAddrLength: nat := 64

  /** `a.length >= 40 && a.length <= 64` on the trimmed input `a`. */
  predicate IsValidAddr(s: string): (ok: bool)
    ensures ok ==> !AllWhitespace(s) && MinAddrLength <= |s|
  {
    TrimBlank(s);
    MinAddrLength <= |Trim(s)| <= MaxAddrLength
  }

  /** Only the length is looked at: a string without surrounding whitespace is accepted
      exactly when its length is in range, whatever characters it holds. */
  lemma ValidAddrIsLengthOnly(s: string)
    requires IsTrimmed(s)
    ensures IsValidAddr(s) <==> MinAddrLength <= |s| <= MaxAddrLength
  {
    TrimOfTrimmed(s);
  }

  /** Surrounding whitespace never changes the verdict, and a blank input is never valid. */
  lemma ValidAddrIgnoresPadding(pre: string, s: string, post: string)
    requires AllWhitespace(pre) && AllWhitespace(post)
    ensures IsValidAddr(pre + s + post) == IsValidAddr(s)
    ensures AllWhitespace(s) ==> !IsValidAddr(s)
  {
    TrimIgnoresPadding(pre, s, post);
    TrimBlank(s);
  }
}
