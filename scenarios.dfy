/** The contract's unit tests, replayed on a fresh `StakingContract`. Each
    method returns what its test inspects, and its postcondition is the
    test's assertion. */
module Scenarios {
  import opened StakingTypes
  import opened Contract
  import Handlers

  const CREATOR: Addr := "creator"
  const ANYONE: Addr := "anyone"
  const STAKER1: Addr := "staker1"

  /** An address check for queries that never validate an address. */
  const AnyAddress: string -> bool := _ => true

  /** proper_initialization */
  method ProperInitialization() returns (messageCount: nat, count: StdResult<QueryResponse>)
    ensures messageCount == 0
    ensures count == StdOk(CountAnswer(GetCountResponse(17)))
  {
    var c := new StakingContract();
    var res := c.Instantiate(MessageInfo(CREATOR, [Coin("earth", 1000)]), InstantiateMsg(17));
    messageCount := |res.response.messages|;
    count := Handlers.Query(c.Snapshot(), GetCount, AnyAddress);
  }

  /** increment */
  method IncrementByAnyone() returns (count: StdResult<QueryResponse>)
    ensures count == StdOk(CountAnswer(GetCountResponse(18)))
  {
    var c := new StakingContract();
    var res := c.Instantiate(MessageInfo(CREATOR, [Coin("token", 2)]), InstantiateMsg(17));
    res := c.Execute(MessageInfo(ANYONE, [Coin("token", 2)]), Increment);
    assert res.Ok?;
    count := Handlers.Query(c.Snapshot(), GetCount, AnyAddress);
  }

  /** reset */
  method ResetOnlyByOwner() returns (unauthorized: ExecResult, count: StdResult<QueryResponse>)
    ensures unauthorized == Err(Unauthorized)
    ensures count == StdOk(CountAnswer(GetCountResponse(5)))
  {
    var c := new StakingContract();
    var res := c.Instantiate(MessageInfo(CREATOR, [Coin("token", 2)]), InstantiateMsg(17));
    unauthorized := c.Execute(MessageInfo(ANYONE, [Coin("token", 2)]), Reset(5));
    res := c.Execute(MessageInfo(CREATOR, [Coin("token", 2)]), Reset(5));
    assert res.Ok?;
    count := Handlers.Query(c.Snapshot(), GetCount, AnyAddress);
  }

  /** stake_tokens; `staker` stands for an address the host accepts. */
  method StakeTokens(staker: Addr, addrValid: string -> bool) returns (amount: StdResult<QueryResponse>)
    requires addrValid(staker)
    ensures amount == StdOk(StakeAnswer(GetStakeResponse(500)))
  {
    var c := new StakingContract();
    var res := c.Instantiate(MessageInfo(CREATOR, [Coin("token", 1000)]), InstantiateMsg(0));
    res := c.Execute(MessageInfo(staker, [Coin("token", 500)]), Stake(500));
    assert res.Ok?;
    amount := Handlers.Query(c.Snapshot(), GetStake(staker), addrValid);
  }

  /** unstake_tokens, which also looks at the transfer that unstake emits. */
  method UnstakeTokens(staker: Addr, addrValid: string -> bool) returns (sent: seq<BankMsg>, amount: StdResult<QueryResponse>)
    requires addrValid(staker)
    ensures sent == [Send(staker, [Coin(DENOM, 300)])]
    ensures amount == StdOk(StakeAnswer(GetStakeResponse(200)))
  {
    var c := new StakingContract();
    var res := c.Instantiate(MessageInfo(CREATOR, [Coin("token", 1000)]), InstantiateMsg(0));
    res := c.Execute(MessageInfo(staker, [Coin("token", 500)]), Stake(500));
    assert res.Ok?;
    res := c.Execute(MessageInfo(staker, [Coin("token", 500)]), Unstake(300));
    sent := res.response.messages;
    amount := Handlers.Query(c.Snapshot(), GetStake(staker), addrValid);
  }

  /** stake_without_funds_should_fail */
  method StakeWithoutFundsShouldFail() returns (err: ExecResult)
    ensures err == Err(Std(GenericErr(INSUFFICIENT_FUNDS)))
  {
    var c := new StakingContract();
    var res := c.Instantiate(MessageInfo(CREATOR, [Coin("token", 1000)]), InstantiateMsg(0));
    err := c.Execute(MessageInfo(STAKER1, []), Stake(500));
  }

  /** unstake_more_than_staked_should_fail */
  method UnstakeMoreThanStakedShouldFail() returns (err: ExecResult)
    ensures err == Err(Std(GenericErr(UNSTAKE_TOO_MUCH)))
  {
    var c := new StakingContract();
    var res := c.Instantiate(MessageInfo(CREATOR, [Coin("token", 1000)]), InstantiateMsg(0));
    res := c.Execute(MessageInfo(STAKER1, [Coin("token", 500)]), Stake(500));
    assert res.Ok?;
    err := c.Execute(MessageInfo(STAKER1, [Coin("token", 500)]), Unstake(1000));
  }

  /** unstake_full_balance_should_leave_zero; it also checks that the entry
      is removed rather than left at zero. */
  method UnstakeFullBalanceShouldLeaveZero(staker: Addr, addrValid: string -> bool)
    returns (amount: StdResult<QueryResponse>, stored: bool)
    requires addrValid(staker)
    ensures amount == StdOk(StakeAnswer(GetStakeResponse(0)))
    ensures !stored
  {
    var c := new StakingContract();
    var res := c.Instantiate(MessageInfo(CREATOR, [Coin("token", 1000)]), InstantiateMsg(0));
    res := c.Execute(MessageInfo(staker, [Coin("token", 500)]), Stake(500));
    assert res.Ok?;
    res := c.Execute(MessageInfo(staker, [Coin("token", 500)]), Unstake(500));
    assert res.Ok?;
    amount := Handlers.Query(c.Snapshot(), GetStake(staker), addrValid);
    stored := staker in c.stakes;
  }
}
