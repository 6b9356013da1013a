/** Values exchanged with the staking contract: integer widths, addresses,
    coins, messages, responses and errors. */
module StakingTypes {

  const I32_MIN: int := -0x8000_0000
  const I32_MAX: int := 0x7fff_ffff
  /** 2^128: the first value a Uint128 cannot hold. */
  const U128_LIMIT: int := 0x1_0000_0000_0000_0000_0000_0000_0000_0000

  type Int32 = x: int | I32_MIN <= x <= I32_MAX
  type Uint128 = x: nat | x < U128_LIMIT

  /** An account address, already validated by the host (cosmwasm `Addr`). */
  type Addr = string

  /** The denomination of the tokens that unstake sends back. */
  const DENOM: string := "token"

  /** Error texts of the handlers (`StdError::generic_err` messages). */
  const INSUFFICIENT_FUNDS: string := "Insufficient funds sent for staking"
  const ZERO_STAKE: string := "Stake amount must be greater than zero"
  const UNSTAKE_TOO_MUCH: string := "Cannot unstake more than your current balance"
  /** The panic text of an overflowing checked addition. */
  const ADD_OVERFLOW: string := "attempt to add with overflow"
  /** The type name that a failed load of the `STATE` item reports. */
  const STATE_KIND: string := "State"

  datatype Option<T> = None | Some(value: T)

  datatype Coin = Coin(denom: string, amount: Uint128)

  /** Who sent a message and what funds came with it. */
  datatype MessageInfo = MessageInfo(sender: Addr, funds: seq<Coin>)

  /** The singleton record stored under `STATE`. */
  datatype State = State(count: Int32, owner: Addr)

  datatype InstantiateMsg = InstantiateMsg(count: Int32)

  datatype ExecuteMsg =
    | Increment
    | Reset(count: Int32)
    | Stake(amount: Uint128)
    | Unstake(amount: Uint128)

  datatype QueryMsg =
    | GetCount
    | GetStake(address: string)

  datatype GetCountResponse = GetCountResponse(count: Int32)
  datatype GetStakeResponse = GetStakeResponse(amount: Uint128)
  datatype QueryResponse = CountAnswer(countResponse: GetCountResponse) | StakeAnswer(stakeResponse: GetStakeResponse)

  /** An attribute value: text, or a number the host renders in decimal. */
  datatype AttrValue = Text(text: string) | Num(n: int)
  datatype Attribute = Attribute(key: string, value: AttrValue)

  /** The only outbound message the contract emits: a bank transfer. */
  datatype BankMsg = Send(toAddress: string, amount: seq<Coin>)

  datatype Response = Response(attributes: seq<Attribute>, messages: seq<BankMsg>)

  datatype StdError =
    | GenericErr(msg: string)
    | NotFound(kind: string)
    | InvalidAddress(address: string)

  datatype ContractError = Std(err: StdError) | Unauthorized

  /** What an instantiate or execute call ends in. `Abort` is a panic of the
      contract, which the host turns into a failed transaction. */
  datatype ExecResult =
    | Ok(response: Response)
    | Err(error: ContractError)
    | Abort(reason: string)

  /** The result of a query handler (cosmwasm `StdResult`). */
  datatype StdResult<T> = StdOk(value: T) | StdErr(error: StdError)

  /** Total amount of the coins in `coins`, whatever their denomination. */
  function CoinsTotal(coins: seq<Coin>): nat
  {
    if coins == [] then 0 else coins[0].amount + CoinsTotal(coins[1..])
  }

  /** Total amount that the bank messages in `msgs` send out. */
  function SentTotal(msgs: seq<BankMsg>): nat
  {
    if msgs == [] then 0 else CoinsTotal(msgs[0].amount) + SentTotal(msgs[1..])
  }

  /** Total amount that a call's outcome authorises the bank to send. */
  function Released(r: ExecResult): nat
  {
    if r.Ok? then SentTotal(r.response.messages) else 0
  }
}
