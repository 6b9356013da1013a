/** Properties that relate several handler calls, or that pin down the
    behaviours of `stake`, `unstake` and `instantiate` which a reader might
    not expect: what `stake` does not look at, what a zero `unstake` does,
    and that `instantiate` can be repeated. */
module Properties {
  import opened StakingTypes
  import opened Balances
  import Handlers

  /** Unstaking what was just staked gives the storage back unchanged, and
      sends exactly that amount of `token` to the staker. */
  lemma StakeThenUnstake(s: Handlers.Store, info: MessageInfo, amount: Uint128)
    requires NoZeroEntries(s.stakes)
    requires Handlers.Stake(s, info, amount).result.Ok?
    ensures var u := Handlers.Unstake(Handlers.Stake(s, info, amount).store, info, amount);
            && u.result.Ok?
            && u.result.response.messages == [Send(info.sender, [Coin(DENOM, amount)])]
            && u.store == s
  {
  }

  /** Unstaking zero always succeeds, leaves every balance as it was and
      still emits a transfer of zero tokens. */
  lemma ZeroUnstake(s: Handlers.Store, info: MessageInfo)
    requires NoZeroEntries(s.stakes)
    ensures var u := Handlers.Unstake(s, info, 0);
            && u.result.Ok?
            && u.result.response.messages == [Send(info.sender, [Coin(DENOM, 0)])]
            && u.store == s
  {
  }

  /** Of the attached funds, `stake` looks only at whether the first coin's
      amount covers the declared amount: its denomination, any surplus and
      the other coins change nothing. */
  lemma StakeReadsOnlyFirstCoinAmount(s: Handlers.Store, sender: Addr, f1: seq<Coin>, f2: seq<Coin>, amount: Uint128)
    requires Handlers.FundsCover(f1, amount) == Handlers.FundsCover(f2, amount)
    ensures Handlers.Stake(s, MessageInfo(sender, f1), amount) == Handlers.Stake(s, MessageInfo(sender, f2), amount)
  {
  }

  /** With no funds attached, even a zero stake reports missing funds: the
      funds check runs before the zero check. */
  lemma StakeChecksFundsFirst(s: Handlers.Store, sender: Addr)
    ensures Handlers.Stake(s, MessageInfo(sender, []), 0) == Handlers.Step(s, Err(Std(GenericErr(INSUFFICIENT_FUNDS))))
  {
  }

  /** A second instantiate succeeds and overwrites the first: the count and
      owner are those of the last call, and the stakes are kept. */
  lemma InstantiateOverwrites(s: Handlers.Store, info1: MessageInfo, msg1: InstantiateMsg, info2: MessageInfo, msg2: InstantiateMsg)
    ensures var again := Handlers.Instantiate(Handlers.Instantiate(s, info1, msg1).store, info2, msg2);
            && again.result.Ok?
            && again.store == Handlers.Instantiate(s, info2, msg2).store
            && again.store.state == Some(State(msg2.count, info2.sender))
  {
  }
}
