/**
 The values a message carries. The library stores properties as `object`;
 the model closes that over the shapes the messages use.
 */
module Values {
  import opened Dates

  datatype Value =
    | Null
    | Str(s: string)
    | Num(n: int)
    | Bool(b: bool)
    | Date(d: ValidDateTime)
    | List(items: seq<Value>)
    | Dict(entries: seq<(string, Value)>)

  /** A required property that is `null` or the empty string counts as absent. */
  predicate IsNullOrEmpty(v: Value)
  {
    v.Null? || v == Str("")
  }

  /** Decimal digits of a natural number, without leading zeros. */
  function NatString(n: nat): (s: string)
    ensures |s| > 0 && AllDigits(s)
  {
    if n < 10 then [DigitChar(n)] else NatString(n / 10) + [DigitChar(n % 10)]
  }

  lemma {:induction false} NatStringRoundTrip(n: nat)
    ensures DigitsValue(NatString(n)) == n
  {
    if n >= 10 {
      var s := NatString(n);
      assert s[..|s| - 1] == NatString(n / 10);
      NatStringRoundTrip(n / 10);
    }
  }

  /** `Int64.ToString()`: an optional minus sign, then the decimal digits. */
  function IntString(n: int): string
  {
    if n < 0 then "-" + NatString(-n) else NatString(n)
  }

  /** `DateTime.ToString()` under the invariant culture: `MM/dd/yyyy HH:mm:ss`. */
  function InvariantDateTimeString(d: ValidDateTime): string
  {
    PadDigits(d.month, 2) + "/" + PadDigits(d.day, 2) + "/" + PadDigits(d.year, 4)
      + " " + PadDigits(d.hour, 2) + ":" + PadDigits(d.minute, 2) + ":" + PadDigits(d.second, 2)
  }

  /**
   `object.ToString()`. A string is its own string form; every other non-null
   value renders as a non-empty string, so a value passes the library's
   null-or-empty check exactly when its string form is non-empty.
   */
  function Show(v: Value): (s: string)
    ensures v.Str? ==> s == v.s
    ensures !v.Null? && !v.Str? ==> |s| > 0
  {
    match v
    case Null => ""
    case Str(s) => s
    case Num(n) => IntString(n)
    case Bool(b) => if b then "True" else "False"
    case Date(d) => InvariantDateTimeString(d)
    case List(_) => "System.Collections.Generic.List`1[System.Object]"
    case Dict(_) => "System.Collections.Generic.Dictionary`2[System.String,System.Object]"
  }

  /** The string form of a number reads back as that number. */
  lemma ShowNumRoundTrip(n: int)
    ensures n >= 0 ==> AllDigits(Show(Num(n))) && DigitsValue(Show(Num(n))) == n
    ensures n < 0 ==> Show(Num(n))[0] == '-' && AllDigits(Show(Num(n))[1..])
                      && DigitsValue(Show(Num(n))[1..]) == -n
  {
    if n >= 0 {
      NatStringRoundTrip(n);
    } else {
      NatStringRoundTrip(-n);
      assert Show(Num(n))[1..] == NatString(-n);
    }
  }
}
