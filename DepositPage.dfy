/** The deposit page's guard (src/pages/Deposit.tsx): a deposit goes ahead
    only with a connected wallet and a positive amount, the wallet being
    checked first; the button is disabled exactly when the guard would
    refuse. */
module DepositPage {

  import opened Options

  datatype Duration = Days7 | Days30 | Days90 | Year1

  /** What `handleDeposit` ends in: one of the two refusal notices, or the
      confirmation for the amount and duration. No outcome changes the
      store. */
  datatype DepositOutcome =
    | ConnectWalletNotice
    | InvalidAmountNotice
    | Initiated(amount: real, duration: Duration)

  /** `parseFloat(depositAmount) || 0`: `parsed` is the result of
      `parseFloat`, `None` when it is NaN. */
  function DepositValue(parsed: Option<real>): (v: real)
    ensures parsed.Some? ==> v == parsed.value
    ensures parsed.None? ==> v == 0.0
    ensures v > 0.0 <==> parsed.Some? && parsed.value > 0.0
  {
    match parsed
    case Some(x) => x
    case None => 0.0
  }

  /** `handleDeposit()`: the wallet check, then the amount check, then the
      confirmation. */
  function HandleDeposit(walletConnected: bool, depositValue: real, duration: Duration): (r: DepositOutcome)
    ensures !walletConnected ==> r == ConnectWalletNotice
    ensures walletConnected && depositValue <= 0.0 ==> r == InvalidAmountNotice
    ensures r.Initiated? <==> walletConnected && depositValue > 0.0
    ensures r.Initiated? ==> r.amount == depositValue && r.duration == duration
  {
    if !walletConnected then ConnectWalletNotice
    else if depositValue <= 0.0 then InvalidAmountNotice
    else Initiated(depositValue, duration)
  }

  /** `disabled={depositValue <= 0 || !walletConnected}` */
  function ButtonDisabled(depositValue: real, walletConnected: bool): bool {
    depositValue <= 0.0 || !walletConnected
  }

  /** The button is disabled exactly when pressing it would be refused,
      for every duration. */
  lemma ButtonMatchesGuard(walletConnected: bool, depositValue: real, duration: Duration)
    ensures ButtonDisabled(depositValue, walletConnected) <==> !HandleDeposit(walletConnected, depositValue, duration).Initiated?
  {
  }

  /** Text that does not parse as a number is refused like a zero amount. */
  lemma UnparsableAmountRefused(walletConnected: bool, duration: Duration)
    ensures HandleDeposit(walletConnected, DepositValue(None), duration)
         == if walletConnected then InvalidAmountNotice else ConnectWalletNotice
  {
  }
}
