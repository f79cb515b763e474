/** Exact money: signed 64-bit minor units with overflow guards, and the decimal codec. */
module Monetary {
  import opened Text
  import opened Wrappers

  /** Go's `int64`. Arithmetic on this type must be proved to stay in range, so the guard
      expressions below are themselves free of overflow. */
  newtype int64 = x: int | -0x8000_0000_0000_0000 <= x <= 0x7FFF_FFFF_FFFF_FFFF

  const MAX_INT64: int64 := 0x7FFF_FFFF_FFFF_FFFF
  const MIN_INT64: int64 := -0x8000_0000_0000_0000

  predicate InRange(n: int) {
    MIN_INT64 as int <= n <= MAX_INT64 as int
  }

  datatype MoneyError = InvalidAmount | NegativeAmount | CurrencyMismatch | Overflow | InvalidCurrency

  datatype Currency = Currency(code: string) {
    predicate Valid() {
      code == "BRL" || code == "EUR" || code == "USD"
    }
  }

  datatype Money = Money(minor: int64, currency: Currency) {
    predicate Valid() { currency.Valid() }

    predicate IsZero() { minor == 0 && Valid() }

    predicate IsPositive() { minor > 0 && Valid() }

    predicate IsNegative() { minor < 0 && Valid() }

    predicate Equal(other: Money) { this == other && Valid() }

    function Incompatibility(other: Money): Option<MoneyError> {
      if !Valid() || !other.Valid() then Some(InvalidCurrency)
      else if currency != other.currency then Some(CurrencyMismatch)
      else None
    }

    predicate Compatible(other: Money) {
      Valid() && other.Valid() && currency == other.currency
    }

    function Add(other: Money): (r: Result<Money, MoneyError>)
      ensures r.Ok? <==> Compatible(other) && InRange(minor as int + other.minor as int)
      ensures r.Ok? ==> r.value.minor as int == minor as int + other.minor as int && r.value.currency == currency
      ensures Compatible(other) && !r.Ok? ==> r == Err(Overflow)
    {
      if Incompatibility(other).Some? then Err(Incompatibility(other).value)
      else if (other.minor > 0 && minor > MAX_INT64 - other.minor)
              || (other.minor < 0 && minor < MIN_INT64 - other.minor) then Err(Overflow)
      else Ok(Money(minor + other.minor, currency))
    }

    function Subtract(other: Money): (r: Result<Money, MoneyError>)
      ensures r.Ok? <==> Compatible(other) && InRange(minor as int - other.minor as int)
      ensures r.Ok? ==> r.value.minor as int == minor as int - other.minor as int && r.value.currency == currency
      ensures Compatible(other) && !r.Ok? ==> r == Err(Overflow)
    {
      if Incompatibility(other).Some? then Err(Incompatibility(other).value)
      else if (other.minor < 0 && minor > MAX_INT64 + other.minor)
              || (other.minor > 0 && minor < MIN_INT64 + other.minor) then Err(Overflow)
      else Ok(Money(minor - other.minor, currency))
    }

    function Negate(): (r: Result<Money, MoneyError>)
      ensures r.Ok? <==> Valid() && InRange(-(minor as int))
      ensures r.Ok? ==> r.value.minor as int == -(minor as int)
      ensures Valid() && !r.Ok? ==> r == Err(Overflow)
    {
      if !Valid() then Err(InvalidCurrency)
      else if minor == MIN_INT64 then Err(Overflow)
      else Ok(Money(-minor, currency))
    }

    function Compare(other: Money): (r: Result<int, MoneyError>)
      ensures r.Ok? <==> Compatible(other)
      ensures r.Ok? ==> (r.value < 0 <==> minor < other.minor) && (r.value > 0 <==> minor > other.minor)
    {
      if Incompatibility(other).Some? then Err(Incompatibility(other).value)
      else if minor < other.minor then Ok(-1)
      else if minor > other.minor then Ok(1)
      else Ok(0)
    }
  }
}
