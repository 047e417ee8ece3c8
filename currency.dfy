/** The currency table and its lookups (src/lib/currency-utils.ts).
    Amounts are integer cents; `formatCurrency`, which depends on the
    platform's number formatter, is not part of this model. */
module Currency {
  import opened Wrappers
  import opened Strings

  datatype CurrencyInfo = CurrencyInfo(code: string, symbol: string, name: string, locale: string)

  /** `CURRENCIES`, in declaration order (which is also `Object.entries` order). */
  const Currencies: seq<CurrencyInfo> := [
    CurrencyInfo("USD", "$", "US Dollar", "en-US"),
    CurrencyInfo("PHP", "₱", "Philippine Peso", "en-PH"),
    CurrencyInfo("EUR", "€", "Euro", "de-DE"),
    CurrencyInfo("GBP", "£", "British Pound", "en-GB"),
    CurrencyInfo("JPY", "¥", "Japanese Yen", "ja-JP"),
    CurrencyInfo("CAD", "C$", "Canadian Dollar", "en-CA"),
    CurrencyInfo("AUD", "A$", "Australian Dollar", "en-AU"),
    CurrencyInfo("CHF", "Fr", "Swiss Franc", "de-CH"),
    CurrencyInfo("INR", "₹", "Indian Rupee", "en-IN")
  ]

  /** The table's own entry for `code`, if any. */
  function Find(table: seq<CurrencyInfo>, code: string): (r: Option<CurrencyInfo>)
    ensures r.Some? ==> r.value in table && r.value.code == code
    ensures r.None? ==> forall i :: 0 <= i < |table| ==> table[i].code != code
  {
    if |table| == 0 then None
    else if table[0].code == code then Some(table[0])
    else Find(table[1..], code)
  }

  /** No two entries of `table` share a code. */
  predicate DistinctCodes(table: seq<CurrencyInfo>) {
    forall i, j :: 0 <= i < j < |table| ==> table[i].code != table[j].code
  }

  /** In a table with distinct codes, looking up an entry's code finds that entry. */
  lemma {:induction false} FindOwnCode(table: seq<CurrencyInfo>)
    requires DistinctCodes(table)
    ensures forall i :: 0 <= i < |table| ==> Find(table, table[i].code) == Some(table[i])
  {
    if |table| > 0 {
      var rest := table[1..];
      assert DistinctCodes(rest) by {
        forall i, j | 0 <= i < j < |rest| ensures rest[i].code != rest[j].code {
          assert rest[i] == table[i + 1] && rest[j] == table[j + 1];
        }
      }
      FindOwnCode(rest);
      forall i | 0 < i < |table| ensures Find(table, table[i].code) == Some(table[i]) {
        assert table[0].code != table[i].code;
        assert rest[i - 1] == table[i];
      }
    }
  }

  /** The first two letters of the table's codes, in table order, pair up distinctly. */
  lemma CodePrefixesDistinct()
    ensures forall i, j :: 0 <= i < j < 9 ==> "UPEGJCACI"[i] != "UPEGJCACI"[j] || "SHUBPAUHN"[i] != "SHUBPAUHN"[j]
  {
  }

  /** The table's codes are distinct, so each code names one currency. */
  lemma CodesDistinct()
    ensures DistinctCodes(Currencies)
  {
    assert |Currencies| == 9;
    assert forall i :: 0 <= i < |Currencies| ==>
      Currencies[i].code[0] == "UPEGJCACI"[i] && Currencies[i].code[1] == "SHUBPAUHN"[i];
    CodePrefixesDistinct();
  }

  /** `getCurrencySymbol`, as evidently intended: the table's symbol for a code the
      table defines, "$" for every other string. */
  function GetCurrencySymbol(code: string): (r: string)
    ensures forall i :: 0 <= i < |Currencies| && Currencies[i].code == code ==> r == Currencies[i].symbol
    ensures (forall i :: 0 <= i < |Currencies| ==> Currencies[i].code != code) ==> r == "$"
  {
    CodesDistinct();
    FindOwnCode(Currencies);
    match Find(Currencies, code)
    case Some(c) => c.symbol
    case None => "$"
  }

  /** Names every plain JavaScript object inherits from `Object.prototype`. */
  const InheritedNames: seq<string> := [
    "constructor", "hasOwnProperty", "isPrototypeOf", "propertyIsEnumerable",
    "toLocaleString", "toString", "valueOf", "__proto__",
    "__defineGetter__", "__defineSetter__", "__lookupGetter__", "__lookupSetter__"
  ]

  /** No inherited name is three characters long, unlike every table code. */
  lemma InheritedNamesAreLong()
    ensures forall i :: 0 <= i < |InheritedNames| ==> |InheritedNames[i]| > 3
    ensures forall i :: 0 <= i < |Currencies| ==> |Currencies[i].code| == 3
  {
  }

  /** `getCurrencySymbol` as written: `CURRENCIES[code]` also finds the inherited
      members, which are truthy but have no `symbol`, so the result is
      `undefined` (None) for them. */
  function GetCurrencySymbolAsWritten(code: string): (r: Option<string>)
    ensures code !in InheritedNames ==> r == Some(GetCurrencySymbol(code))
    ensures code in InheritedNames ==> r.None?
  {
    InheritedNamesAreLong();
    match Find(Currencies, code)
    case Some(c) => Some(c.symbol)
    case None => if code in InheritedNames then None else Some("$")
  }

  /** The input that shows the discrepancy: "toString" is no currency code, yet
      the lookup as written yields no symbol instead of "$". */
  lemma InheritedNameHasNoSymbol()
    ensures GetCurrencySymbolAsWritten("toString") == None
    ensures GetCurrencySymbol("toString") == "$"
  {
    assert "toString" in InheritedNames;
  }

  datatype CurrencyOption = CurrencyOption(value: string, labelText: string, symbol: string)

  function OptionOf(c: CurrencyInfo): CurrencyOption {
    CurrencyOption(c.code, c.code + " - " + c.name + " (" + c.symbol + ")", c.symbol)
  }

  function OptionsOf(table: seq<CurrencyInfo>): (opts: seq<CurrencyOption>)
    ensures |opts| == |table|
    ensures forall i :: 0 <= i < |table| ==> opts[i] == OptionOf(table[i])
  {
    if |table| == 0 then [] else [OptionOf(table[0])] + OptionsOf(table[1..])
  }

  /** `getCurrencyOptions`: one option per table entry, in table order, each
      valued by the code and labelled "<code> - <name> (<symbol>)". */
  function GetCurrencyOptions(): (opts: seq<CurrencyOption>)
    ensures |opts| == |Currencies|
    ensures forall i :: 0 <= i < |opts| ==> opts[i] == OptionOf(Currencies[i])
  {
    OptionsOf(Currencies)
  }

  /** Each option is valued by its code and labelled "<code> - <name> (<symbol>)". */
  lemma OptionLabels()
    ensures forall i :: 0 <= i < |GetCurrencyOptions()| ==>
      && GetCurrencyOptions()[i].value == Currencies[i].code
      && GetCurrencyOptions()[i].symbol == Currencies[i].symbol
      && GetCurrencyOptions()[i].labelText ==
           Currencies[i].code + " - " + Currencies[i].name + " (" + Currencies[i].symbol + ")"
  {
    var opts := GetCurrencyOptions();
    forall i | 0 <= i < |opts|
      ensures opts[i].value == Currencies[i].code && opts[i].symbol == Currencies[i].symbol
      ensures opts[i].labelText == Currencies[i].code + " - " + Currencies[i].name + " (" + Currencies[i].symbol + ")"
    {
      var c := Currencies[i];
      assert opts[i] == OptionOf(c);
    }
  }

  /** Every option offered in the picker shows the same symbol that
      `getCurrencySymbol` gives for its value. */
  lemma OptionsAgreeWithSymbol()
    ensures forall o :: o in GetCurrencyOptions() ==> GetCurrencySymbol(o.value) == o.symbol
  {
    var opts := GetCurrencyOptions();
    forall o | o in opts ensures GetCurrencySymbol(o.value) == o.symbol {
      var i :| 0 <= i < |opts| && opts[i] == o;
      assert Currencies[i].code == o.value && Currencies[i].symbol == o.symbol;
    }
  }

  // ---- formatCurrencyForPDF over cents ----

  /** The two-digit field of a cents value below 100. */
  function Pad2(k: nat): (s: string)
    requires k < 100
    ensures |s| == 2 && IsDigit(s[0]) && IsDigit(s[1])
    ensures DigitValue(s[0]) * 10 + DigitValue(s[1]) == k
  {
    [DigitChar(k / 10), DigitChar(k % 10)]
  }

  /** `(cents / 100).toFixed(2)` for an exact amount of cents. */
  function Fixed2(cents: int): string {
    var a: nat := if cents < 0 then -cents else cents;
    (if cents < 0 then "-" else "") + NatToString(a / 100) + "." + Pad2(a % 100)
  }

  /** Reads a non-negative amount with exactly two decimals back into cents. */
  function ParseUnsignedFixed2(s: string): Option<nat> {
    if |s| >= 4 && s[|s| - 3] == '.' && IsDigit(s[|s| - 2]) && IsDigit(s[|s| - 1])
       && forall i :: 0 <= i < |s| - 3 ==> IsDigit(s[i])
    then Some(ParseNat(s[..|s| - 3]) * 100 + DigitValue(s[|s| - 2]) * 10 + DigitValue(s[|s| - 1]))
    else None
  }

  /** Reads an amount with exactly two decimals and an optional leading minus. */
  function ParseFixed2(s: string): Option<int> {
    if |s| > 0 && s[0] == '-' then
      match ParseUnsignedFixed2(s[1..])
      case Some(v) => Some(-(v as int))
      case None => None
    else match ParseUnsignedFixed2(s)
      case Some(v) => Some(v)
      case None => None
  }

  lemma {:induction false} UnsignedRoundTrip(a: nat)
    ensures ParseUnsignedFixed2(NatToString(a / 100) + "." + Pad2(a % 100)) == Some(a)
  {
    var w := NatToString(a / 100);
    var s := w + "." + Pad2(a % 100);
    assert s[..|s| - 3] == w;
    assert forall i :: 0 <= i < |s| - 3 ==> s[i] == w[i];
    ParseNatToString(a / 100);
  }

  /** `toFixed(2)` of an exact amount reads back to the same cents. */
  lemma Fixed2RoundTrip(cents: int)
    ensures |Fixed2(cents)| >= 4 && Fixed2(cents)[|Fixed2(cents)| - 3] == '.'
    ensures ParseFixed2(Fixed2(cents)) == Some(cents)
  {
    var body := Fixed2(cents);
    var a: nat := if cents < 0 then -cents else cents;
    var u := NatToString(a / 100) + "." + Pad2(a % 100);
    UnsignedRoundTrip(a);
    if cents < 0 {
      assert body == "-" + u && body[1..] == u;
    } else {
      assert body == u && IsDigit(body[0]);
    }
  }

  /** `formatCurrencyForPDF(amount, code)`: the code ("USD" when the argument is
      left out), one space, then the amount with exactly two decimals. */
  function FormatCurrencyForPDF(cents: int, code: Option<string>): (r: string)
    ensures var c := code.GetOr("USD");
      |r| >= |c| + 5 && r[..|c|] == c && r[|c|] == ' ' && r[|r| - 3] == '.' &&
      ParseFixed2(r[|c| + 1..]) == Some(cents)
  {
    var c := code.GetOr("USD");
    var body := Fixed2(cents);
    Fixed2RoundTrip(cents);
    var r := c + " " + body;
    assert r[|c| + 1..] == body;
    r
  }

  /** An absent currency code is the same as "USD"; a present one, even "", is kept. */
  lemma FormatDefaultsToUsd(cents: int)
    ensures FormatCurrencyForPDF(cents, None) == FormatCurrencyForPDF(cents, Some("USD"))
    ensures FormatCurrencyForPDF(0, None) == "USD 0.00"
    ensures FormatCurrencyForPDF(-5, Some("")) == " -0.05"
  {
  }
}
