/**
 The confirmation titles of the public-key export: the decimal rendering of
 `%lu`, the account number shown for an xpub, and the bounded titles that are
 either formatted in full into the 100-byte title buffer or not shown at all.
 */
module Titles {
  import opened BtcTypes

  /** The size of the `title` buffer; a title must leave room for the terminating NUL. */
  const TitleBufferSize: nat := 100

  /** BIP32_INITIAL_HARDENED_CHILD, the offset of hardened indices (BIP 32, "Extended keys"). */
  const HardenedOffset: U32 := 0x8000_0000

  /** The text between the coin name and the account number of an xpub title. */
  const AccountLabel: string := "\naccount #"

  /** The text after the coin name in the title of a P2WPKH address. */
  const Bech32Suffix: string := " bech32"

  predicate IsDigit(c: char) { '0' <= c <= '9' }

  predicate AllDigits(s: string) { forall i | 0 <= i < |s| :: IsDigit(s[i]) }

  function DigitChar(d: nat): (c: char)
    requires d < 10
    ensures IsDigit(c) && c as int - '0' as int == d
  {
    ('0' as int + d) as char
  }

  function DigitValue(c: char): nat
    requires IsDigit(c)
  {
    c as int - '0' as int
  }

  /** The text `%lu` prints for `n`: its decimal digits, without leading zeros. */
  function Decimal(n: nat): (s: string)
    ensures AllDigits(s)
    ensures |s| == 1 <==> n < 10
    ensures |s| > 1 ==> s[0] != '0'
  {
    if n < 10 then [DigitChar(n)] else Decimal(n / 10) + [DigitChar(n % 10)]
  }

  /** The number a string of decimal digits denotes; the reading of Decimal. */
  function ParseDecimal(s: string): nat
    requires AllDigits(s)
  {
    if s == [] then 0 else ParseDecimal(s[..|s| - 1]) * 10 + DigitValue(s[|s| - 1])
  }

  function Pow10(k: nat): nat
  {
    if k == 0 then 1 else 10 * Pow10(k - 1)
  }

  /** Reading back the printed number gives the number: Decimal loses nothing. */
  lemma {:induction false} DecimalRoundTrip(n: nat)
    ensures ParseDecimal(Decimal(n)) == n
  {
    if n >= 10 {
      var s := Decimal(n);
      assert s[..|s| - 1] == Decimal(n / 10);
      DecimalRoundTrip(n / 10);
    }
  }

  /** A number below 10^k prints in at most k digits. */
  lemma {:induction false} DecimalLength(n: nat, k: nat)
    requires 0 < k && n < Pow10(k)
    ensures |Decimal(n)| <= k
  {
    if n >= 10 {
      assert k > 1;
      assert n / 10 < Pow10(k - 1);
      DecimalLength(n / 10, k - 1);
      assert Decimal(n) == Decimal(n / 10) + [DigitChar(n % 10)];
    }
  }

  /** A 32-bit number prints in at most ten digits. */
  lemma U32DecimalLength(n: U32)
    ensures |Decimal(n)| <= 10
  {
    assert Pow10(10) == 10_000_000_000 by {
      assert Pow10(5) == 100_000;
    }
    DecimalLength(n, 10);
  }

  /** The keypath index at which an account number lands; the inverse of AccountNumber. */
  function AccountIndexOf(account: U32): U32
  {
    (account + HardenedOffset - 1) % UnsignedLongModulus
  }

  /**
   The account number of an xpub title, `keypath[2] - BIP32_INITIAL_HARDENED_CHILD + 1`
   computed in 32-bit `unsigned long`: it wraps around for an index that is not hardened.
   */
  function AccountNumber(index: U32): (account: U32)
    ensures index >= HardenedOffset ==> account == index - HardenedOffset + 1
    ensures 1 <= account <= HardenedOffset <==> index >= HardenedOffset
    ensures AccountIndexOf(account) == index
  {
    (index - HardenedOffset + 1) % UnsignedLongModulus
  }

  /** Distinct keypath indices give distinct account numbers. */
  lemma AccountNumberInjective(i: U32, j: U32)
    requires AccountNumber(i) == AccountNumber(j)
    ensures i == j
  {
    assert AccountIndexOf(AccountNumber(i)) == i;
  }

  /**
   snprintf into the title buffer followed by the truncation check: the title
   exists only when all of it fits in front of the terminating NUL.
   */
  function FitTitle(text: string): Option<string>
  {
    if |text| < TitleBufferSize then Some(text) else None
  }

  /** The xpub types whose confirmation has a title; every other type is refused. */
  predicate HasAccountTitle(t: XPubType) { !t.OtherXPubType? }

  /**
   The confirmation title of an xpub export, or None when the type has no title
   or the formatted text would not fit the buffer.
   */
  function XPubTitle(t: XPubType, coinName: string, index: U32): (r: Option<string>)
    ensures r.Some? ==> HasAccountTitle(t) && |r.value| < TitleBufferSize
    ensures r.Some? ==> r.value == coinName + AccountLabel + Decimal(AccountNumber(index))
    ensures r.Some? ==> var k := |coinName| + |AccountLabel|;
      && |r.value| > k
      && r.value[..|coinName|] == coinName
      && r.value[|coinName|..k] == AccountLabel
      && AllDigits(r.value[k..])
      && ParseDecimal(r.value[k..]) == AccountNumber(index)
    ensures HasAccountTitle(t) ==>
      (r.Some? <==> |coinName| + |AccountLabel| + |Decimal(AccountNumber(index))| < TitleBufferSize)
    ensures HasAccountTitle(t) && |coinName| < TitleBufferSize - |AccountLabel| - 10 ==> r.Some?
    ensures |coinName| >= TitleBufferSize - |AccountLabel| - 1 ==> r.None?
  {
    var digits := Decimal(AccountNumber(index));
    var text := coinName + AccountLabel + digits;
    assert text[|coinName| + |AccountLabel|..] == digits;
    DecimalRoundTrip(AccountNumber(index));
    U32DecimalLength(AccountNumber(index));
    if HasAccountTitle(t) then FitTitle(text) else None
  }

  /**
   A shown xpub title determines the keypath's account index: titles for two
   indices under one coin name are never the same text.
   */
  lemma XPubTitleDeterminesIndex(t1: XPubType, t2: XPubType, coinName: string, i1: U32, i2: U32)
    requires XPubTitle(t1, coinName, i1).Some?
    requires XPubTitle(t1, coinName, i1) == XPubTitle(t2, coinName, i2)
    ensures i1 == i2
  {
    var k := |coinName| + |AccountLabel|;
    var title := XPubTitle(t1, coinName, i1).value;
    assert ParseDecimal(title[k..]) == AccountNumber(i1);
    assert ParseDecimal(title[k..]) == AccountNumber(i2);
    AccountNumberInjective(i1, i2);
  }

  /**
   The confirmation title of a simple address: the coin name for P2WPKH-P2SH,
   the coin name and " bech32" for P2WPKH, None for any other type or a text
   that would not fit.
   */
  function SimpleTitle(t: SimpleType, coinName: string): (r: Option<string>)
    ensures r.Some? ==> |coinName| <= |r.value| < TitleBufferSize && r.value[..|coinName|] == coinName
    ensures t == P2wpkhP2sh ==> (r.Some? <==> |coinName| < TitleBufferSize)
    ensures t == P2wpkh ==> (r.Some? <==> |coinName| + |Bech32Suffix| < TitleBufferSize)
    ensures t == P2wpkhP2sh && r.Some? ==> |r.value| == |coinName|
    ensures t == P2wpkh && r.Some? ==> r.value[|coinName|..] == Bech32Suffix
    ensures t.OtherSimpleType? ==> r.None?
  {
    match t
    case P2wpkhP2sh => FitTitle(coinName)
    case P2wpkh => FitTitle(coinName + Bech32Suffix)
    case OtherSimpleType(_) => None
  }

  /** Under one coin name the two simple address types never share a title. */
  lemma SimpleTitlesDistinct(coinName: string)
    requires SimpleTitle(P2wpkhP2sh, coinName).Some? && SimpleTitle(P2wpkh, coinName).Some?
    ensures SimpleTitle(P2wpkhP2sh, coinName) != SimpleTitle(P2wpkh, coinName)
  {
  }
}
