/** Pricing rules of backend/utils/helpers.js that need no floating point:
    the ITM/ATM/OTM classification of an option and the zero guard of the
    percentage change. */
module Pricing {

  /** UNDERLYING_BASE_VALUE, the default of the backend constants. */
  const UNDERLYING_BASE_VALUE: int := 22500

  /** The at-the-money threshold, in percent of the base value. */
  const ATM_THRESHOLD: real := 0.5

  datatype Moneyness = ITM | ATM | OTM

  function Abs(x: real): real
  {
    if x < 0.0 then -x else x
  }

  /** Half-width of the at-the-money band: 0.5 * (22500 / 100) = 112.5. */
  function AtmBand(): real
  {
    ATM_THRESHOLD * (UNDERLYING_BASE_VALUE as real / 100.0)
  }

  /** getMoneyness: ATM within the band around the underlying price, otherwise
      ITM or OTM by the side of the strike; every type other than "CALL" is
      classified as a put. */
  function GetMoneyness(strike: real, underlyingPrice: real, optionType: string): (m: Moneyness)
    ensures m == ATM <==> Abs(strike - underlyingPrice) <= AtmBand()
    ensures m != ATM && optionType == "CALL" ==> (m == ITM <==> strike < underlyingPrice)
    ensures m != ATM && optionType != "CALL" ==> (m == ITM <==> strike > underlyingPrice)
  {
    if optionType == "CALL" then
      if Abs(strike - underlyingPrice) <= ATM_THRESHOLD * (UNDERLYING_BASE_VALUE as real / 100.0) then ATM
      else if strike < underlyingPrice then ITM
      else OTM
    else
      if Abs(strike - underlyingPrice) <= ATM_THRESHOLD * (UNDERLYING_BASE_VALUE as real / 100.0) then ATM
      else if strike > underlyingPrice then ITM
      else OTM
  }

  /** Any option type other than "CALL" is treated exactly like "PUT". */
  lemma NonCallIsPut(strike: real, underlyingPrice: real, optionType: string)
    requires optionType != "CALL"
    ensures GetMoneyness(strike, underlyingPrice, optionType) == GetMoneyness(strike, underlyingPrice, "PUT")
  {
  }

  /** At one strike the call and the put are both ATM, or else one is ITM and
      the other OTM. */
  lemma CallPutOpposite(strike: real, underlyingPrice: real)
    ensures GetMoneyness(strike, underlyingPrice, "CALL") == ATM
        <==> GetMoneyness(strike, underlyingPrice, "PUT") == ATM
    ensures GetMoneyness(strike, underlyingPrice, "CALL") == ITM
        <==> GetMoneyness(strike, underlyingPrice, "PUT") == OTM
  {
  }

  /** calculatePercentChange: 0 when the previous price is 0 (no division by
      zero), otherwise the change in percent of the previous price. The
      rounding to two decimals is not modelled. */
  function CalculatePercentChange(currentPrice: real, previousPrice: real): (r: real)
    ensures previousPrice == 0.0 ==> r == 0.0
    ensures previousPrice != 0.0 ==> r * previousPrice == (currentPrice - previousPrice) * 100.0
  {
    if previousPrice == 0.0 then 0.0
    else (currentPrice - previousPrice) / previousPrice * 100.0
  }
}
