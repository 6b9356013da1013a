/** The contract's handlers as transitions over a snapshot of its storage.
    Each handler either commits a new snapshot and answers `Ok`, or fails
    (an error or a panic) and leaves the snapshot exactly as it was: the
    host discards a failed transaction. */
module Handlers {
  import opened StakingTypes
  import opened Balances

  /** The contract's storage: the `STATE` item (absent before the first
      instantiate) and the `STAKES` map. */
  datatype Store = Store(state: Option<State>, stakes: Stakes)

  /** A handler's new storage and its outcome. */
  datatype Step = Step(store: Store, result: ExecResult)

  /** The storage of a contract nobody has instantiated yet. */
  const EMPTY: Store := Store(None, map[])

  function Action(name: string): Attribute
  {
    Attribute("action", Text(name))
  }

  /** `instantiate`: stores the count and makes the sender the owner. There
      is no guard against a second call: it overwrites the state. */
  function Instantiate(s: Store, info: MessageInfo, msg: InstantiateMsg): (r: Step)
    ensures r.result.Ok? && r.result.response.messages == []
    ensures r.result.response.attributes ==
              [Attribute("method", Text("instantiate")), Attribute("owner", Text(info.sender)), Attribute("count", Num(msg.count))]
    ensures QueryCount(r.store) == StdOk(GetCountResponse(msg.count))
    ensures r.store.state.Some? && r.store.state.value.owner == info.sender
    ensures r.store.stakes == s.stakes
  {
    var attrs := [Attribute("method", Text("instantiate")),
                  Attribute("owner", Text(info.sender)),
                  Attribute("count", Num(msg.count))];
    Step(s.(state := Some(State(msg.count, info.sender))), Ok(Response(attrs, [])))
  }

  /** `execute::increment`: anyone may add one to the count. The state is
      loaded first, so the call fails before any instantiate; an `i32` at
      its maximum panics on the addition. */
  function Increment(s: Store): (r: Step)
    ensures !r.result.Ok? ==> r.store == s
    ensures s.state.None? ==> r.result == Err(Std(NotFound(STATE_KIND)))
    ensures s.state.Some? && s.state.value.count == I32_MAX ==> r.result == Abort(ADD_OVERFLOW)
    ensures r.result.Ok? <==> s.state.Some? && s.state.value.count < I32_MAX
    ensures r.result.Ok? ==>
              && QueryCount(r.store) == StdOk(GetCountResponse(s.state.value.count + 1))
              && r.store.state.value.owner == s.state.value.owner
              && r.store.stakes == s.stakes
              && r.result.response.messages == []
              && r.result.response.attributes == [Action("increment")]
  {
    match s.state
    case None => Step(s, Err(Std(NotFound(STATE_KIND))))
    case Some(st) =>
      if st.count == I32_MAX then Step(s, Abort(ADD_OVERFLOW))
      else Step(s.(state := Some(st.(count := st.count + 1))), Ok(Response([Action("increment")], [])))
  }

  /** `execute::reset`: only the owner may set the count. */
  function Reset(s: Store, info: MessageInfo, count: Int32): (r: Step)
    ensures !r.result.Ok? ==> r.store == s
    ensures s.state.None? ==> r.result == Err(Std(NotFound(STATE_KIND)))
    ensures s.state.Some? && info.sender != s.state.value.owner ==> r.result == Err(Unauthorized)
    ensures r.result.Ok? <==> s.state.Some? && info.sender == s.state.value.owner
    ensures r.result.Ok? ==>
              && QueryCount(r.store) == StdOk(GetCountResponse(count))
              && r.store.state.value.owner == s.state.value.owner
              && r.store.stakes == s.stakes
              && r.result.response.messages == []
              && r.result.response.attributes == [Action("reset")]
  {
    match s.state
    case None => Step(s, Err(Std(NotFound(STATE_KIND))))
    case Some(st) =>
      if info.sender != st.owner then Step(s, Err(Unauthorized))
      else Step(s.(state := Some(st.(count := count))), Ok(Response([Action("reset")], [])))
  }

  /** The funds check of `stake`: some coin was sent and the first one is
      worth at least `amount`. Its denomination is not looked at. */
  predicate FundsCover(funds: seq<Coin>, amount: Uint128)
  {
    funds != [] && funds[0].amount >= amount
  }

  /** `execute::stake`: credits `amount` to the sender. The funds check comes
      before the zero check; an addition past `Uint128` panics. */
  function Stake(s: Store, info: MessageInfo, amount: Uint128): (r: Step)
    ensures !r.result.Ok? ==> r.store == s
    ensures !FundsCover(info.funds, amount) ==> r.result == Err(Std(GenericErr(INSUFFICIENT_FUNDS)))
    ensures FundsCover(info.funds, amount) && amount == 0 ==> r.result == Err(Std(GenericErr(ZERO_STAKE)))
    ensures FundsCover(info.funds, amount) && amount > 0 && Balance(s.stakes, info.sender) + amount >= U128_LIMIT ==>
              r.result == Abort(ADD_OVERFLOW)
    ensures r.result.Ok? <==>
              FundsCover(info.funds, amount) && amount > 0 && Balance(s.stakes, info.sender) + amount < U128_LIMIT
    ensures r.result.Ok? ==>
              && r.store.state == s.state
              && info.sender in r.store.stakes
              && Balance(r.store.stakes, info.sender) == Balance(s.stakes, info.sender) + amount
              && (forall a :: a != info.sender ==> Balance(r.store.stakes, a) == Balance(s.stakes, a))
              && r.result.response.messages == []
              && r.result.response.attributes ==
                   [Action("stake"), Attribute("staker", Text(info.sender)), Attribute("amount", Num(amount))]
    ensures r.result.Ok? ==> Total(r.store.stakes) == Total(s.stakes) + amount
    ensures NoZeroEntries(s.stakes) ==> NoZeroEntries(r.store.stakes)
  {
    if !FundsCover(info.funds, amount) then Step(s, Err(Std(GenericErr(INSUFFICIENT_FUNDS))))
    else if amount == 0 then Step(s, Err(Std(GenericErr(ZERO_STAKE))))
    else
      var sum := Balance(s.stakes, info.sender) + amount;
      if sum >= U128_LIMIT then Step(s, Abort(ADD_OVERFLOW))
      else
        TotalUpdate(s.stakes, info.sender, sum);
        var attrs := [Action("stake"), Attribute("staker", Text(info.sender)), Attribute("amount", Num(amount))];
        Step(s.(stakes := s.stakes[info.sender := sum]), Ok(Response(attrs, [])))
  }

  /** The stakes after `a`'s balance becomes `b`: a zero balance removes the
      entry, any other is saved. */
  function SetStake(m: Stakes, a: Addr, b: Uint128): (m': Stakes)
    ensures Balance(m', a) == b
    ensures a in m' <==> b > 0
    ensures forall other :: other != a ==> Balance(m', other) == Balance(m, other)
    ensures Total(m') + Balance(m, a) == Total(m) + b
  {
    TotalSplit(m, a);
    if b == 0 then
      m - {a}
    else
      TotalUpdate(m, a, b);
      m[a := b]
  }

  /** `execute::unstake`: takes `amount` off the sender's balance and tells
      the bank to send that much back. A zero amount succeeds and still
      emits a (zero) transfer. */
  function Unstake(s: Store, info: MessageInfo, amount: Uint128): (r: Step)
    ensures !r.result.Ok? ==> r.store == s
    ensures r.result.Ok? <==> amount <= Balance(s.stakes, info.sender)
    ensures !r.result.Ok? ==> r.result == Err(Std(GenericErr(UNSTAKE_TOO_MUCH)))
    ensures r.result.Ok? ==>
              && r.store.state == s.state
              && Balance(r.store.stakes, info.sender) == Balance(s.stakes, info.sender) - amount
              && (info.sender in r.store.stakes <==> Balance(r.store.stakes, info.sender) > 0)
              && (forall a :: a != info.sender ==> Balance(r.store.stakes, a) == Balance(s.stakes, a))
              && r.result.response.messages == [Send(info.sender, [Coin(DENOM, amount)])]
              && r.result.response.attributes ==
                   [Action("unstake"), Attribute("staker", Text(info.sender)), Attribute("amount", Num(amount))]
    ensures r.result.Ok? ==> Total(r.store.stakes) + amount == Total(s.stakes)
    ensures NoZeroEntries(s.stakes) ==> NoZeroEntries(r.store.stakes)
  {
    var current := Balance(s.stakes, info.sender);
    if amount > current then Step(s, Err(Std(GenericErr(UNSTAKE_TOO_MUCH))))
    else
      var attrs := [Action("unstake"), Attribute("staker", Text(info.sender)), Attribute("amount", Num(amount))];
      var send := Send(info.sender, [Coin(DENOM, amount)]);
      Step(s.(stakes := SetStake(s.stakes, info.sender, current - amount)), Ok(Response(attrs, [send])))
  }

  /** The amount a call credits to stake: the declared amount of a stake
      that succeeded, nothing otherwise. */
  function Credited(msg: ExecuteMsg, r: ExecResult): nat
  {
    if msg.Stake? && r.Ok? then msg.amount else 0
  }

  /** `execute`: dispatch on the message. */
  function Execute(s: Store, info: MessageInfo, msg: ExecuteMsg): (r: Step)
    ensures !r.result.Ok? ==> r.store == s
    ensures Total(r.store.stakes) + Released(r.result) == Total(s.stakes) + Credited(msg, r.result)
    ensures NoZeroEntries(s.stakes) ==> NoZeroEntries(r.store.stakes)
    ensures r.store.state.Some? <==> s.state.Some?
    ensures r.store.state.Some? ==> r.store.state.value.owner == s.state.value.owner
    ensures r.store.state != s.state ==>
              r.result.Ok? && (msg.Increment? || (msg.Reset? && info.sender == s.state.value.owner))
    ensures r.store.stakes != s.stakes ==> r.result.Ok? && (msg.Stake? || msg.Unstake?)
  {
    match msg
    case Increment => Increment(s)
    case Reset(count) => Reset(s, info, count)
    case Stake(amount) => Stake(s, info, amount)
    case Unstake(amount) =>
      var r := Unstake(s, info, amount);
      assert r.result.Ok? ==> SentTotal(r.result.response.messages) == amount by {
        if r.result.Ok? {
          var send := r.result.response.messages[0];
          assert r.result.response.messages[1..] == [];
          assert send.amount[1..] == [];
          assert CoinsTotal(send.amount) == amount;
        }
      }
      r
  }

  /** `query::count`: the stored count; fails before any instantiate. */
  function QueryCount(s: Store): (r: StdResult<GetCountResponse>)
    ensures r.StdOk? <==> s.state.Some?
    ensures r.StdOk? ==> r.value.count == s.state.value.count
    ensures r.StdErr? ==> r.error == NotFound(STATE_KIND)
  {
    match s.state
    case None => StdErr(NotFound(STATE_KIND))
    case Some(st) => StdOk(GetCountResponse(st.count))
  }

  /** `query::stake`: the balance of `address`, 0 when it has no entry.
      `addrValid` is the host's address check (`addr_validate`), which
      returns the address unchanged when it accepts it. */
  function QueryStake(s: Store, address: string, addrValid: string -> bool): (r: StdResult<GetStakeResponse>)
    ensures r.StdErr? <==> !addrValid(address)
    ensures r.StdErr? ==> r.error == InvalidAddress(address)
    ensures r.StdOk? ==> r.value.amount == Balance(s.stakes, address)
    ensures r.StdOk? && NoZeroEntries(s.stakes) ==> (r.value.amount == 0 <==> address !in s.stakes)
  {
    if !addrValid(address) then StdErr(InvalidAddress(address))
    else StdOk(GetStakeResponse(Balance(s.stakes, address)))
  }

  /** `query`: dispatch on the message. */
  function Query(s: Store, msg: QueryMsg, addrValid: string -> bool): (r: StdResult<QueryResponse>)
    ensures msg.GetCount? ==> (r.StdOk? <==> s.state.Some?)
    ensures msg.GetStake? ==> (r.StdOk? <==> addrValid(msg.address))
    ensures r.StdOk? ==> (r.value.CountAnswer? <==> msg.GetCount?)
    ensures r.StdOk? && msg.GetCount? ==> r.value.countResponse.count == s.state.value.count
    ensures r.StdOk? && msg.GetStake? ==> r.value.stakeResponse.amount == Balance(s.stakes, msg.address)
    ensures r.StdErr? && msg.GetCount? ==> r.error == NotFound(STATE_KIND)
    ensures r.StdErr? && msg.GetStake? ==> r.error == InvalidAddress(msg.address)
  {
    match msg
    case GetCount =>
      (match QueryCount(s)
       case StdOk(c) => StdOk(CountAnswer(c))
       case StdErr(e) => StdErr(e))
    case GetStake(address) =>
      (match QueryStake(s, address, addrValid)
       case StdOk(a) => StdOk(StakeAnswer(a))
       case StdErr(e) => StdErr(e))
  }

  /** One execute call: its sender, attached funds and message. */
  datatype Call = Call(info: MessageInfo, msg: ExecuteMsg)

  /** The storage after a series of calls, and the outcome of each. */
  datatype Trace = Trace(store: Store, results: seq<ExecResult>)

  function Run(s: Store, calls: seq<Call>): (r: Trace)
    ensures |r.results| == |calls|
    decreases |calls|
  {
    if calls == [] then Trace(s, [])
    else
      var step := Execute(s, calls[0].info, calls[0].msg);
      var rest := Run(step.store, calls[1..]);
      Trace(rest.store, [step.result] + rest.results)
  }

  /** Total amount credited by the stakes among `calls` that succeeded. */
  function Accepted(calls: seq<Call>, results: seq<ExecResult>): nat
    requires |results| == |calls|
  {
    if calls == [] then 0
    else Credited(calls[0].msg, results[0]) + Accepted(calls[1..], results[1..])
  }

  /** Total amount released to the bank by the outcomes `results`. */
  function ReleasedAll(results: seq<ExecResult>): nat
  {
    if results == [] then 0 else Released(results[0]) + ReleasedAll(results[1..])
  }

  /** Conservation: over any series of calls, what is staked at the end plus
      what was sent back equals what was staked at the start plus what was
      credited. */
  lemma {:induction false} Conservation(s: Store, calls: seq<Call>)
    ensures var t := Run(s, calls);
            Total(t.store.stakes) + ReleasedAll(t.results) == Total(s.stakes) + Accepted(calls, t.results)
    decreases |calls|
  {
    if calls != [] {
      var step := Execute(s, calls[0].info, calls[0].msg);
      var rest := Run(step.store, calls[1..]);
      Conservation(step.store, calls[1..]);
      var t := Run(s, calls);
      assert t.results[0] == step.result && t.results[1..] == rest.results;
    }
  }

  /** No series of calls ever stores a zero balance. */
  lemma {:induction false} RunKeepsNoZeroEntries(s: Store, calls: seq<Call>)
    requires NoZeroEntries(s.stakes)
    ensures NoZeroEntries(Run(s, calls).store.stakes)
    decreases |calls|
  {
    if calls != [] {
      RunKeepsNoZeroEntries(Execute(s, calls[0].info, calls[0].msg).store, calls[1..]);
    }
  }

  /** No series of execute calls changes the owner. */
  lemma {:induction false} RunKeepsOwner(s: Store, calls: seq<Call>)
    ensures Run(s, calls).store.state.Some? <==> s.state.Some?
    ensures s.state.Some? ==> Run(s, calls).store.state.value.owner == s.state.value.owner
    decreases |calls|
  {
    if calls != [] {
      RunKeepsOwner(Execute(s, calls[0].info, calls[0].msg).store, calls[1..]);
    }
  }
}
