/**
 * The distributor directory: each distributor owns a list of product-code
 * prefixes, and a product code resolves to the first distributor (in
 * directory order) one of whose prefixes the upper-cased code starts with.
 */
module Distributors {
  import opened Wrappers

  datatype AddressBlock = AddressBlock(name: string, email: string, lines: seq<string>)

  datatype DistributorProfile = DistributorProfile(
    id: string,
    office: AddressBlock,     // the "from" block
    delivery: AddressBlock,   // the default "to" block
    productCodePrefixes: seq<string>)

  /** The address blocks of the directory: 0 Best Choice, 1 Happy Dog office, 2 Nirvasian warehouse. */
  function Address(k: nat): AddressBlock
  {
    if k == 0 then
      AddressBlock("Best Choice International Ltd", "irenesogood@gmail.com",
        ["Block A, Floor 5 , Po Chai Industrial Bldg", "#28 Wong Chuk Hnag Road", "Aberdeen, Hong Kong"])
    else if k == 1 then
      AddressBlock("Happy Dog Inc", "cathrina@cobbgrill.com.ph",
        ["Level 24, Philippine Stock Exchange Tower", "One Bonifacio High Street",
         "5th Ave. Cor. 28th St. BGC, Taguig City", "Manila, Philippines"])
    else
      AddressBlock("Nirvasian Fullfillment Centre", "cathrina@cobbgrill.com.ph",
        ["East Gerodias Street", "San Antonio", "San Pedro, Laguna 4023", "Philippines"])
  }

  function BestChoice(): DistributorProfile
  {
    DistributorProfile("best-choice-international", Address(0), Address(0), BestChoicePrefixes())
  }

  function BestChoicePrefixes(): seq<string>
  {
    ["PKA", "PKI", "SFI", "GFJ", "GFE", "TGE", "SFM", "DGF", "KCPF", "KCPFL"]
  }

  function DistributorThree(): DistributorProfile
  {
    DistributorProfile("distributor-3", Address(1), Address(2), ["600"])
  }

  /** The directory, in lookup order. */
  function Directory(): seq<DistributorProfile>
  {
    [BestChoice(), DistributorThree()]
  }

  predicate IsLower(c: char)
  {
    'a' <= c <= 'z'
  }

  /** Upper-casing of one character (ASCII letters only). */
  function UpperChar(c: char): (r: char)
    ensures !IsLower(r)
    ensures IsLower(c) ==> r as int == c as int - 32
    ensures !IsLower(c) ==> r == c
  {
    if IsLower(c) then (c as int - 32) as char else c
  }

  /** `String.prototype.toUpperCase`, restricted to ASCII letters. */
  function ToUpper(s: string): (r: string)
    ensures |r| == |s|
    ensures forall i | 0 <= i < |r| :: !IsLower(r[i])
    ensures forall i | 0 <= i < |s| :: r[i] == UpperChar(s[i])
  {
    if s == [] then [] else [UpperChar(s[0])] + ToUpper(s[1..])
  }

  /** Two strings that differ only in the case of their ASCII letters. */
  predicate SameUpToCase(a: string, b: string)
  {
    |a| == |b| && forall i | 0 <= i < |a| :: UpperChar(a[i]) == UpperChar(b[i])
  }

  lemma {:induction false} ToUpperIgnoresCase(a: string, b: string)
    requires SameUpToCase(a, b)
    ensures ToUpper(a) == ToUpper(b)
  {
    if a != [] {
      assert SameUpToCase(a[1..], b[1..]) by {
        forall i | 0 <= i < |a[1..]|
          ensures UpperChar(a[1..][i]) == UpperChar(b[1..][i])
        {
          assert a[1..][i] == a[i + 1] && b[1..][i] == b[i + 1];
        }
      }
      ToUpperIgnoresCase(a[1..], b[1..]);
    }
  }

  /** `d.productCodePrefixes.some(p => upper.startsWith(p))`. */
  predicate Matches(d: DistributorProfile, upper: string)
  {
    exists p | p in d.productCodePrefixes :: p <= upper
  }

  /** `ds.find(d => ...some...)`: the first profile whose prefixes match. */
  function Find(ds: seq<DistributorProfile>, upper: string): (r: Option<DistributorProfile>)
    ensures r.None? <==> forall d | d in ds :: !Matches(d, upper)
    ensures r.Some? ==> r.value in ds && Matches(r.value, upper)
    ensures r.Some? ==> exists i | 0 <= i < |ds| :: ds[i] == r.value &&
                          forall j | 0 <= j < i :: !Matches(ds[j], upper)
  {
    if ds == [] then None
    else if Matches(ds[0], upper) then
      assert ds[0] in ds;
      Some(ds[0])
    else
      var r := Find(ds[1..], upper);
      assert forall d | d in ds[1..] :: d in ds;
      if r.Some? then
        var i :| 0 <= i < |ds[1..]| && ds[1..][i] == r.value &&
                 forall j | 0 <= j < i :: !Matches(ds[1..][j], upper);
        assert ds[i + 1] == r.value;
        assert forall j | 0 <= j < i + 1 :: !Matches(ds[j], upper) by {
          forall j | 0 <= j < i + 1
            ensures !Matches(ds[j], upper)
          {
            if j > 0 { assert ds[j] == ds[1..][j - 1]; }
          }
        }
        r
      else
        r
  }

  /** `getDistributorForProductCode` over a directory `ds`. */
  function ForProductCodeIn(ds: seq<DistributorProfile>, code: Option<string>): (r: Option<DistributorProfile>)
    ensures code.None? || code.value == "" ==> r.None?
    ensures r.Some? ==> r.value in ds
  {
    if code.None? || code.value == "" then None
    else Find(ds, ToUpper(code.value))
  }

  /** `getDistributorForProductCode`, over the site's directory. */
  function GetDistributorForProductCode(code: Option<string>): (r: Option<DistributorProfile>)
    ensures code.None? || code.value == "" ==> r.None?
    ensures r.Some? ==> r.value in Directory()
  {
    ForProductCodeIn(Directory(), code)
  }

  /** A resolved code starts with one of its distributor's prefixes (after upper-casing). */
  lemma Sound(ds: seq<DistributorProfile>, code: string)
    requires ForProductCodeIn(ds, Some(code)).Some?
    ensures exists p | p in ForProductCodeIn(ds, Some(code)).value.productCodePrefixes :: p <= ToUpper(code)
  {
  }

  /** A non-empty code is unresolved exactly when no prefix of any distributor matches it. */
  lemma UnresolvedIffNoPrefix(ds: seq<DistributorProfile>, code: string)
    requires code != ""
    ensures ForProductCodeIn(ds, Some(code)).None? <==>
              forall d, p | d in ds && p in d.productCodePrefixes :: !(p <= ToUpper(code))
  {
  }

  /** The profile returned is the first in directory order whose prefixes match. */
  lemma FirstMatchWins(ds: seq<DistributorProfile>, code: string)
    requires ForProductCodeIn(ds, Some(code)).Some?
    ensures exists i | 0 <= i < |ds| :: ds[i] == ForProductCodeIn(ds, Some(code)).value &&
              Matches(ds[i], ToUpper(code)) &&
              forall j | 0 <= j < i :: !Matches(ds[j], ToUpper(code))
  {
  }

  /** Codes that differ only in letter case resolve to the same distributor. */
  lemma CaseInsensitive(ds: seq<DistributorProfile>, a: string, b: string)
    requires SameUpToCase(a, b)
    ensures ForProductCodeIn(ds, Some(a)) == ForProductCodeIn(ds, Some(b))
  {
    ToUpperIgnoresCase(a, b);
  }

  /** Prefixes are not upper-cased: one holding a lower-case letter never matches. */
  lemma {:induction false} LowerCasePrefixNeverMatches(p: string, code: string, k: nat)
    requires k < |p| && IsLower(p[k])
    ensures !(p <= ToUpper(code))
  {
  }

  /** `getDistributorForItems` over a directory: the loop returns on the first item that resolves. */
  function ForItemsIn(ds: seq<DistributorProfile>, items: seq<Option<string>>): (r: Option<DistributorProfile>)
    ensures r.Some? ==> r.value in ds
  {
    if items == [] then None
    else
      var d := ForProductCodeIn(ds, items[0]);
      if d.Some? then d else ForItemsIn(ds, items[1..])
  }

  /** No item before position `i` resolves. */
  predicate UnresolvedBefore(ds: seq<DistributorProfile>, items: seq<Option<string>>, i: int)
    requires i <= |items|
  {
    forall j | 0 <= j < i :: ForProductCodeIn(ds, items[j]).None?
  }

  /**
   * The items resolve to the distributor of the first item whose code resolves,
   * every earlier item being unresolved; an empty or all-unresolved list gives none.
   */
  lemma {:induction false} FirstResolvingItem(ds: seq<DistributorProfile>, items: seq<Option<string>>)
    ensures ForItemsIn(ds, items).None? <==> UnresolvedBefore(ds, items, |items|)
    ensures ForItemsIn(ds, items).Some? ==>
              exists i | 0 <= i < |items| :: ForProductCodeIn(ds, items[i]) == ForItemsIn(ds, items) &&
                UnresolvedBefore(ds, items, i)
  {
    if items != [] && ForProductCodeIn(ds, items[0]).None? {
      var rest := items[1..];
      FirstResolvingItem(ds, rest);
      assert forall i | 1 <= i < |items| :: items[i] == rest[i - 1];
      assert forall i | 0 <= i < |rest| :: UnresolvedBefore(ds, rest, i) ==> UnresolvedBefore(ds, items, i + 1);
      assert UnresolvedBefore(ds, rest, |rest|) ==> UnresolvedBefore(ds, items, |items|);
      if ForItemsIn(ds, rest).Some? {
        var i :| 0 <= i < |rest| && ForProductCodeIn(ds, rest[i]) == ForItemsIn(ds, rest) &&
                 UnresolvedBefore(ds, rest, i);
        assert ForProductCodeIn(ds, items[i + 1]) == ForItemsIn(ds, items);
      }
    }
  }

  /** `getDistributorForItems`, over the site's directory. */
  function GetDistributorForItems(items: seq<Option<string>>): (r: Option<DistributorProfile>)
    ensures items == [] ==> r.None?
    ensures r.Some? ==> r.value in Directory()
  {
    ForItemsIn(Directory(), items)
  }

  /** When the first profile does not match and the second does, the second is found. */
  lemma SecondMatches(ds: seq<DistributorProfile>, upper: string)
    requires |ds| == 2 && !Matches(ds[0], upper) && Matches(ds[1], upper)
    ensures Find(ds, upper) == Some(ds[1])
  {
    assert ds[1..][0] == ds[1];
  }

  /** Every Best Choice prefix starts with an upper-case letter. */
  lemma BestChoicePrefixesStartWithLetters()
    ensures forall p | p in BestChoice().productCodePrefixes :: |p| > 0 && 'A' <= p[0] <= 'Z'
  {
  }

  /** A profile matches as soon as one of its prefixes does. */
  lemma MatchesBy(d: DistributorProfile, p: string, upper: string)
    requires p in d.productCodePrefixes && p <= upper
    ensures Matches(d, upper)
  {
  }

  /** A profile none of whose prefixes shares the code's first character does not match. */
  lemma NoMatchOnFirstChar(d: DistributorProfile, upper: string)
    requires |upper| > 0
    requires forall p | p in d.productCodePrefixes :: |p| > 0 && p[0] != upper[0]
    ensures !Matches(d, upper)
  {
  }

  /** Codes that start with a digit never go to Best Choice International. */
  lemma BestChoiceRejectsDigits(upper: string)
    requires |upper| > 0 && '0' <= upper[0] <= '9'
    ensures !Matches(BestChoice(), upper)
  {
    BestChoicePrefixesStartWithLetters();
    NoMatchOnFirstChar(BestChoice(), upper);
  }

  /** EAN-like codes starting with "600" belong to distributor-3. */
  lemma EanCodesGoToDistributorThree(code: string)
    requires "600" <= code
    ensures GetDistributorForProductCode(Some(code)) == Some(DistributorThree())
  {
    var u := ToUpper(code);
    assert u[0] == '6' && u[1] == '0' && u[2] == '0';
    BestChoiceRejectsDigits(u);
    assert "600" <= u;
    MatchesBy(DistributorThree(), "600", u);
    SecondMatches(Directory(), u);
  }

  /** "PKA" codes, in either case, belong to Best Choice International. */
  lemma PkaCodesGoToBestChoice(code: string)
    requires |code| >= 3 && UpperChar(code[0]) == 'P' && UpperChar(code[1]) == 'K' && UpperChar(code[2]) == 'A'
    ensures GetDistributorForProductCode(Some(code)) == Some(BestChoice())
  {
    var u := ToUpper(code);
    assert u[0] == 'P' && u[1] == 'K' && u[2] == 'A';
    assert "PKA" <= u;
    MatchesBy(BestChoice(), "PKA", u);
  }
}
