/**
 * The static exchange-rate table of the inventory request form
 * (`EXCHANGE_RATES`), its lookup `getExchangeRate`, and the list of countries a
 * buyer can pick, each with its display currency.
 */
module ExchangeRates {
  import opened Wrappers

  /**
   * The currency codes that occur in the table and in the country list, one
   * named constant per code (numbered in the order of the table).
   */
  newtype Code = c: int | 0 <= c < 50

  const AFN: Code := 0
  const AMD: Code := 1
  const AZN: Code := 2
  const BHD: Code := 3
  const BDT: Code := 4
  const BTN: Code := 5
  const BND: Code := 6
  const KHR: Code := 7
  const CNY: Code := 8
  const EUR: Code := 9
  const GEL: Code := 10
  const INR: Code := 11
  const IDR: Code := 12
  const IRR: Code := 13
  const IQD: Code := 14
  const ILS: Code := 15
  const JPY: Code := 16
  const JOD: Code := 17
  const KZT: Code := 18
  const KWD: Code := 19
  const KGS: Code := 20
  const LAK: Code := 21
  const LBP: Code := 22
  const MYR: Code := 23
  const MVR: Code := 24
  const MNT: Code := 25
  const MMK: Code := 26
  const NPR: Code := 27
  const KPW: Code := 28
  const OMR: Code := 29
  const PKR: Code := 30
  const PHP: Code := 31
  const QAR: Code := 32
  const RUB: Code := 33
  const SAR: Code := 34
  const SGD: Code := 35
  const KRW: Code := 36
  const LKR: Code := 37
  const SYP: Code := 38
  const TWD: Code := 39
  const TJS: Code := 40
  const THB: Code := 41
  const USD: Code := 42
  const TRY: Code := 43
  const TMT: Code := 44
  const AED: Code := 45
  const UZS: Code := 46
  const VND: Code := 47
  const YER: Code := 48
  const GBP: Code := 49

  /** The four codes whose rows list each other. */
  const Majors: set<Code> := {JPY, USD, EUR, GBP}

  /**
   * One row of the table: every row lists JPY, USD, EUR and GBP. A row of a
   * major lists exactly those four, its own entry among them being 1; any
   * other row lists them and its own code, at 1.
   */
  datatype Rates = Rates(jpy: Rate, usd: Rate, eur: Rate, gbp: Rate)

  /** A table entry: every rate written in the table is strictly positive. */
  type Rate = x: real | x > 0.0 witness 1.0

  /** `EXCHANGE_RATES[c]`, rows in source order. */
  function Row(c: Code): Rates
  {
    if c == AFN then Rates(1.7, 0.011, 0.010, 0.0088)
    else if c == AMD then Rates(0.38, 0.0025, 0.0023, 0.0020)
    else if c == AZN then Rates(88.0, 0.52, 0.48, 0.42)
    else if c == BHD then Rates(395.0, 2.65, 2.45, 2.11)
    else if c == BDT then Rates(1.4, 0.0084, 0.0078, 0.0067)
    else if c == BTN then Rates(1.8, 0.012, 0.011, 0.0095)
    else if c == BND then Rates(110.0, 0.74, 0.68, 0.59)
    else if c == KHR then Rates(0.036, 0.00024, 0.00022, 0.00019)
    else if c == CNY then Rates(21.0, 0.14, 0.13, 0.11)
    else if c == EUR then Rates(160.48, 1.07, 1.0, 0.85)
    else if c == GEL then Rates(53.0, 0.35, 0.33, 0.28)
    else if c == INR then Rates(1.8, 0.012, 0.011, 0.0095)
    else if c == IDR then Rates(0.0096, 0.000064, 0.000059, 0.000051)
    else if c == IRR then Rates(0.0035, 0.000023, 0.000021, 0.000018)
    else if c == IQD then Rates(0.11, 0.00076, 0.00070, 0.00061)
    else if c == ILS then Rates(40.0, 0.27, 0.25, 0.21)
    else if c == JPY then Rates(1.0, 0.0067, 0.0062, 0.0053)
    else if c == JOD then Rates(210.0, 1.41, 1.30, 1.12)
    else if c == KZT then Rates(0.32, 0.0021, 0.0020, 0.0017)
    else if c == KWD then Rates(485.0, 3.25, 3.00, 2.59)
    else if c == KGS then Rates(1.7, 0.011, 0.010, 0.0088)
    else if c == LAK then Rates(0.0070, 0.000047, 0.000043, 0.000037)
    else if c == LBP then Rates(0.00017, 0.0000011, 0.0000010, 0.00000087)
    else if c == MYR then Rates(32.0, 0.21, 0.20, 0.17)
    else if c == MVR then Rates(9.7, 0.065, 0.060, 0.052)
    else if c == MNT then Rates(0.043, 0.000029, 0.000027, 0.000023)
    else if c == MMK then Rates(0.071, 0.00047, 0.00044, 0.00038)
    else if c == NPR then Rates(1.1, 0.0075, 0.0069, 0.0059)
    else if c == KPW then Rates(1.2, 0.0080, 0.0074, 0.0064)
    else if c == OMR then Rates(387.0, 2.59, 2.39, 2.06)
    else if c == PKR then Rates(0.54, 0.0036, 0.0033, 0.0029)
    else if c == PHP then Rates(2.5, 0.017, 0.015, 0.013)
    else if c == QAR then Rates(41.0, 0.28, 0.26, 0.22)
    else if c == RUB then Rates(1.6, 0.011, 0.010, 0.0086)
    else if c == SAR then Rates(40.0, 0.27, 0.25, 0.21)
    else if c == SGD then Rates(110.0, 0.74, 0.68, 0.59)
    else if c == KRW then Rates(0.11, 0.00075, 0.00069, 0.00059)
    else if c == LKR then Rates(0.49, 0.0033, 0.0030, 0.0026)
    else if c == SYP then Rates(0.00015, 0.0000010, 0.00000092, 0.00000080)
    else if c == TWD then Rates(4.6, 0.031, 0.029, 0.025)
    else if c == TJS then Rates(14.0, 0.094, 0.087, 0.075)
    else if c == THB then Rates(4.1, 0.027, 0.025, 0.022)
    else if c == USD then Rates(149.25, 1.0, 0.93, 0.79)
    else if c == TRY then Rates(4.6, 0.031, 0.029, 0.025)
    else if c == TMT then Rates(42.0, 0.28, 0.26, 0.22)
    else if c == AED then Rates(40.0, 0.27, 0.25, 0.21)
    else if c == UZS then Rates(0.012, 0.000081, 0.000075, 0.000065)
    else if c == VND then Rates(0.0063, 0.000042, 0.000039, 0.000034)
    else if c == YER then Rates(0.59, 0.0040, 0.0037, 0.0032)
    else Rates(189.51, 1.26, 1.18, 1.0)
  }

  /** `EXCHANGE_RATES[from][to]`, or None when the row has no such key. */
  function Entry(from: Code, to: Code): (r: Option<real>)
    ensures r.Some? <==> to in Majors || to == from
  {
    if to == JPY then Some(Row(from).jpy)
    else if to == USD then Some(Row(from).usd)
    else if to == EUR then Some(Row(from).eur)
    else if to == GBP then Some(Row(from).gbp)
    else if to == from then Some(1.0)
    else None
  }

  /**
   * `getExchangeRate(from, to)`. `from` is None when the caller passes no source
   * currency at all (JavaScript `undefined`, which is not a key of the table).
   * Identity first, then the direct entry, then the reciprocal of a non-zero
   * reverse entry, else 0.
   */
  function GetExchangeRate(from: Option<Code>, to: Code): (r: real)
    ensures from == Some(to) ==> r == 1.0
    ensures from.None? ==> r == 0.0
    ensures from.Some? && from.value != to && Entry(from.value, to).Some? ==> r == Entry(from.value, to).value
    ensures from.Some? && from.value != to && Entry(from.value, to).None? ==>
      r == (if Entry(to, from.value).Some? && Entry(to, from.value).value != 0.0
            then 1.0 / Entry(to, from.value).value else 0.0)
  {
    if from == Some(to) then 1.0
    else if from.Some? && Entry(from.value, to).Some? then Entry(from.value, to).value
    else if from.Some? && Entry(to, from.value).Some? && Entry(to, from.value).value != 0.0 then
      1.0 / Entry(to, from.value).value
    else 0.0
  }

  /** A major's own entry in its row is 1, like every other row's own entry. */
  lemma {:induction false} OwnEntryIsOne(c: Code)
    ensures Entry(c, c) == Some(1.0)
  {
  }

  /** The rate from a code to itself is 1, for every code. */
  lemma Identity(c: Code)
    ensures GetExchangeRate(Some(c), c) == 1.0
  {
  }

  /** A listed direct entry is returned as it stands. */
  lemma DirectEntry(from: Code, to: Code)
    requires from != to && Entry(from, to).Some?
    ensures GetExchangeRate(Some(from), to) == Entry(from, to).value
  {
  }

  /** Without a direct entry, a listed non-zero reverse entry r gives 1 / r. */
  lemma ReverseEntry(from: Code, to: Code)
    requires from != to && Entry(from, to).None?
    requires Entry(to, from).Some? && Entry(to, from).value != 0.0
    ensures GetExchangeRate(Some(from), to) == 1.0 / Entry(to, from).value
  {
  }

  /** The reciprocal of a positive rate is positive and undoes it. */
  lemma Reciprocal(x: real)
    requires x > 0.0
    ensures 1.0 / x > 0.0 && x * (1.0 / x) == 1.0 && (1.0 / x) * x == 1.0
  {
  }

  /**
   * Between a major and a non-major only the non-major's row has an entry, so
   * the rate one way is that entry and the rate back is exactly its
   * reciprocal: converting there and back is lossless.
   */
  lemma {:induction false} MinorMajorRates(m: Code, c: Code)
    requires m in Majors && c !in Majors
    ensures GetExchangeRate(Some(c), m) == Entry(c, m).value > 0.0
    ensures GetExchangeRate(Some(m), c) == 1.0 / Entry(c, m).value
  {
  }

  /**
   * The rate is 0 exactly when the source currency is missing, or the codes
   * differ and neither direction is listed.
   */
  lemma {:induction false} ZeroRate(from: Option<Code>, to: Code)
    ensures GetExchangeRate(from, to) == 0.0 <==>
      from.None? || (from.value != to && Entry(from.value, to).None? && Entry(to, from.value).None?)
  {
    if from.Some? && from.value != to {
      var f := from.value;
      if f in Majors && to in Majors {
      } else if f in Majors {
        MinorMajorRates(f, to);
        Reciprocal(Entry(to, f).value);
      } else if to in Majors {
        MinorMajorRates(to, f);
      }
    }
  }

  /**
   * Converting from JPY or USD (the currencies products are priced in) to any
   * code of the table gives a strictly positive rate.
   */
  lemma {:induction false} RateFromJpyOrUsdPositive(from: Code, to: Code)
    requires from == JPY || from == USD
    ensures GetExchangeRate(Some(from), to) > 0.0
  {
    if to == from {
    } else if to in Majors {
    } else {
      MinorMajorRates(from, to);
      Reciprocal(Entry(to, from).value);
    }
  }

  /**
   * Between two distinct majors both rows list the other, with independently
   * rounded rates: converting there and back stays within 0.6 % of the amount.
   */
  lemma MajorsRoundTrip(a: Code, b: Code)
    requires a in Majors && b in Majors
    ensures 0.994 <= GetExchangeRate(Some(a), b) * GetExchangeRate(Some(b), a) <= 1.006
  {
  }

  /**
   * Where both directions are listed the direct entry wins, even though it is
   * not the reciprocal of the reverse entry: between two majors converting
   * there and back is not lossless.
   */
  lemma DirectEntryTakesPrecedence()
    ensures GetExchangeRate(Some(JPY), USD) == 0.0067
    ensures GetExchangeRate(Some(USD), JPY) == 149.25
    ensures GetExchangeRate(Some(JPY), USD) * GetExchangeRate(Some(USD), JPY) != 1.0
  {
  }

  /** One entry of `countries`: the name shown to the buyer, its display currency and symbol. */
  datatype Country = Country(name: string, currency: Code, symbol: string)

  /** The number of entries of `countries`. */
  const CountryCount := 53

  /** The entry at position `i` of `countries`. */
  function CountryAt(i: nat): Country
    requires i < CountryCount
  {
    Country(CountryName(i), CountryCurrency(i), CountrySymbol(i))
  }

  /** The name of the country at position `i`. */
  function CountryName(i: nat): string
    requires i < CountryCount
  {
    if i == 0 then "Japan"
    else if i == 1 then "United States"
    else if i == 2 then "Europe"
    else if i == 3 then "United Kingdom"
    else if i == 4 then "Afghanistan"
    else if i == 5 then "Armenia"
    else if i == 6 then "Azerbaijan"
    else if i == 7 then "Bahrain"
    else if i == 8 then "Bangladesh"
    else if i == 9 then "Bhutan"
    else if i == 10 then "Brunei"
    else if i == 11 then "Cambodia"
    else if i == 12 then "China"
    else if i == 13 then "Cyprus"
    else if i == 14 then "Georgia"
    else if i == 15 then "India"
    else if i == 16 then "Indonesia"
    else if i == 17 then "Iran"
    else if i == 18 then "Iraq"
    else if i == 19 then "Israel"
    else if i == 20 then "Jordan"
    else if i == 21 then "Kazakhstan"
    else if i == 22 then "Kuwait"
    else if i == 23 then "Kyrgyzstan"
    else if i == 24 then "Laos"
    else if i == 25 then "Lebanon"
    else if i == 26 then "Malaysia"
    else if i == 27 then "Maldives"
    else if i == 28 then "Mongolia"
    else if i == 29 then "Myanmar"
    else if i == 30 then "Nepal"
    else if i == 31 then "North Korea"
    else if i == 32 then "Oman"
    else if i == 33 then "Pakistan"
    else if i == 34 then "Palestine"
    else if i == 35 then "Philippines"
    else if i == 36 then "Qatar"
    else if i == 37 then "Russia"
    else if i == 38 then "Saudi Arabia"
    else if i == 39 then "Singapore"
    else if i == 40 then "South Korea"
    else if i == 41 then "Sri Lanka"
    else if i == 42 then "Syria"
    else if i == 43 then "Taiwan"
    else if i == 44 then "Tajikistan"
    else if i == 45 then "Thailand"
    else if i == 46 then "Timor-Leste"
    else if i == 47 then "Turkey"
    else if i == 48 then "Turkmenistan"
    else if i == 49 then "United Arab Emirates"
    else if i == 50 then "Uzbekistan"
    else if i == 51 then "Vietnam"
    else "Yemen"
  }

  /** The display currency of the country at position `i`. */
  function CountryCurrency(i: nat): Code
    requires i < CountryCount
  {
    if i == 0 then JPY
    else if i == 1 then USD
    else if i == 2 then EUR
    else if i == 3 then GBP
    else if i == 4 then AFN
    else if i == 5 then AMD
    else if i == 6 then AZN
    else if i == 7 then BHD
    else if i == 8 then BDT
    else if i == 9 then BTN
    else if i == 10 then BND
    else if i == 11 then KHR
    else if i == 12 then CNY
    else if i == 13 then EUR
    else if i == 14 then GEL
    else if i == 15 then INR
    else if i == 16 then IDR
    else if i == 17 then IRR
    else if i == 18 then IQD
    else if i == 19 then ILS
    else if i == 20 then JOD
    else if i == 21 then KZT
    else if i == 22 then KWD
    else if i == 23 then KGS
    else if i == 24 then LAK
    else if i == 25 then LBP
    else if i == 26 then MYR
    else if i == 27 then MVR
    else if i == 28 then MNT
    else if i == 29 then MMK
    else if i == 30 then NPR
    else if i == 31 then KPW
    else if i == 32 then OMR
    else if i == 33 then PKR
    else if i == 34 then ILS
    else if i == 35 then PHP
    else if i == 36 then QAR
    else if i == 37 then RUB
    else if i == 38 then SAR
    else if i == 39 then SGD
    else if i == 40 then KRW
    else if i == 41 then LKR
    else if i == 42 then SYP
    else if i == 43 then TWD
    else if i == 44 then TJS
    else if i == 45 then THB
    else if i == 46 then USD
    else if i == 47 then TRY
    else if i == 48 then TMT
    else if i == 49 then AED
    else if i == 50 then UZS
    else if i == 51 then VND
    else YER
  }

  /** The currency symbol shown for the country at position `i`. */
  function CountrySymbol(i: nat): string
    requires i < CountryCount
  {
    if i == 0 then "¥"
    else if i == 1 then "$"
    else if i == 2 then "€"
    else if i == 3 then "£"
    else if i == 4 then "؋"
    else if i == 5 then "AMD"
    else if i == 6 then "₼"
    else if i == 7 then ".د.ب"
    else if i == 8 then "৳"
    else if i == 9 then "Nu."
    else if i == 10 then "$"
    else if i == 11 then "៛"
    else if i == 12 then "¥"
    else if i == 13 then "€"
    else if i == 14 then "₾"
    else if i == 15 then "₹"
    else if i == 16 then "Rp"
    else if i == 17 then "﷼"
    else if i == 18 then "ع.د"
    else if i == 19 then "₪"
    else if i == 20 then "د.ا"
    else if i == 21 then "₸"
    else if i == 22 then "د.ك"
    else if i == 23 then "сom"
    else if i == 24 then "₭"
    else if i == 25 then "ل.ل"
    else if i == 26 then "RM"
    else if i == 27 then ".ރ"
    else if i == 28 then "₮"
    else if i == 29 then "Ks"
    else if i == 30 then "₨"
    else if i == 31 then "₩"
    else if i == 32 then "ر.ع."
    else if i == 33 then "₨"
    else if i == 34 then "₪"
    else if i == 35 then "₱"
    else if i == 36 then "ر.ق"
    else if i == 37 then "₽"
    else if i == 38 then "ر.س"
    else if i == 39 then "$"
    else if i == 40 then "₩"
    else if i == 41 then "₨"
    else if i == 42 then "£"
    else if i == 43 then "NT$"
    else if i == 44 then "ЅМ"
    else if i == 45 then "฿"
    else if i == 46 then "$"
    else if i == 47 then "₺"
    else if i == 48 then "m"
    else if i == 49 then "د.إ"
    else if i == 50 then "лв"
    else if i == 51 then "₫"
    else "﷼"
  }

  /** `countries`, in the order of the selector; the first entry is the default. */
  function Countries(): (r: seq<Country>)
    ensures |r| == CountryCount
  {
    seq(CountryCount, i requires 0 <= i < CountryCount => CountryAt(i))
  }

  /** The default selection is Japan, shown in yen. */
  lemma DefaultCountry()
    ensures Countries()[0] == Country("Japan", JPY, "¥")
  {
  }
}
