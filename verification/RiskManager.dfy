// The pre-trade risk gate. A limit of zero switches the corresponding check off.
module Risk {
  import opened Base

  datatype RiskLimits = RiskLimits(maxQuantity: real, maxOpenOrders: nat, dailyLoss: real)

  /** The implicit conversion of a signed 32-bit count to an unsigned 64-bit one. */
  function ToSizeT(n: int): int {
    if n < 0 then n + 0x1_0000_0000_0000_0000 else n
  }

  function Check(limits: RiskLimits, quantity: real, openOrders: int, pnl: real): (r: Outcome<()>)
    ensures r.Ok? <==>
            && (limits.maxQuantity == 0.0 || quantity <= limits.maxQuantity)
            && (limits.maxOpenOrders == 0 || openOrders <= limits.maxOpenOrders)
            && (limits.dailyLoss == 0.0 || pnl + limits.dailyLoss >= 0.0)
    ensures r.Err? ==> r.error == QuantityLimit || r.error == OpenOrderLimit || r.error == DailyLossLimit
  {
    if limits.maxQuantity != 0.0 && quantity > limits.maxQuantity then Err(QuantityLimit)
    else if limits.maxOpenOrders != 0 && openOrders > limits.maxOpenOrders then Err(OpenOrderLimit)
    else if limits.dailyLoss != 0.0 && pnl < -limits.dailyLoss then Err(DailyLossLimit)
    else Ok(())
  }
}
