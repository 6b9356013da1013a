/** The contract as the host runs it: one object whose two storage entries,
    the `STATE` item and the `STAKES` map, each handler reads and rewrites
    in place. Every handler is proved to do exactly what the transition of
    the same name in `Handlers` describes. */
module Contract {
  import opened StakingTypes
  import opened Balances
  import Handlers

  class StakingContract {
    /** The `STATE` item; `None` until the first instantiate. */
    var state: Option<State>
    /** The `STAKES` map from staker to balance. */
    var stakes: Stakes

    /** Storage invariant: no zero balance is ever stored. */
    ghost predicate Valid()
      reads this
    {
      NoZeroEntries(stakes)
    }

    /** The current storage as a value. */
    function Snapshot(): Handlers.Store
      reads this
    {
      Handlers.Store(state, stakes)
    }

    /** A contract with empty storage. */
    constructor ()
      ensures Valid() && Snapshot() == Handlers.EMPTY
    {
      state := None;
      stakes := map[];
    }

    method Instantiate(info: MessageInfo, msg: InstantiateMsg) returns (r: ExecResult)
      requires Valid()
      modifies this
      ensures Valid()
      ensures Handlers.Step(Snapshot(), r) == Handlers.Instantiate(old(Snapshot()), info, msg)
    {
      state := Some(State(msg.count, info.sender));
      r := Ok(Response([Attribute("method", Text("instantiate")),
                        Attribute("owner", Text(info.sender)),
                        Attribute("count", Num(msg.count))], []));
    }

    method Increment() returns (r: ExecResult)
      requires Valid()
      modifies this
      ensures Valid()
      ensures Handlers.Step(Snapshot(), r) == Handlers.Increment(old(Snapshot()))
    {
      if state.None? {
        return Err(Std(NotFound(STATE_KIND)));
      }
      var st := state.value;
      if st.count == I32_MAX {
        return Abort(ADD_OVERFLOW);
      }
      st := st.(count := st.count + 1);
      state := Some(st);
      r := Ok(Response([Handlers.Action("increment")], []));
    }

    method Reset(info: MessageInfo, count: Int32) returns (r: ExecResult)
      requires Valid()
      modifies this
      ensures Valid()
      ensures Handlers.Step(Snapshot(), r) == Handlers.Reset(old(Snapshot()), info, count)
    {
      if state.None? {
        return Err(Std(NotFound(STATE_KIND)));
      }
      var st := state.value;
      if info.sender != st.owner {
        return Err(Unauthorized);
      }
      st := st.(count := count);
      state := Some(st);
      r := Ok(Response([Handlers.Action("reset")], []));
    }

    method Stake(info: MessageInfo, amount: Uint128) returns (r: ExecResult)
      requires Valid()
      modifies this
      ensures Valid()
      ensures Handlers.Step(Snapshot(), r) == Handlers.Stake(old(Snapshot()), info, amount)
    {
      if info.funds == [] || info.funds[0].amount < amount {
        return Err(Std(GenericErr(INSUFFICIENT_FUNDS)));
      }
      if amount == 0 {
        return Err(Std(GenericErr(ZERO_STAKE)));
      }
      var balance := if info.sender in stakes then stakes[info.sender] else 0;
      if balance + amount >= U128_LIMIT {
        return Abort(ADD_OVERFLOW);
      }
      stakes := stakes[info.sender := balance + amount];
      r := Ok(Response([Handlers.Action("stake"),
                        Attribute("staker", Text(info.sender)),
                        Attribute("amount", Num(amount))], []));
    }

    method Unstake(info: MessageInfo, amount: Uint128) returns (r: ExecResult)
      requires Valid()
      modifies this
      ensures Valid()
      ensures Handlers.Step(Snapshot(), r) == Handlers.Unstake(old(Snapshot()), info, amount)
    {
      var sender := info.sender;
      var current := if sender in stakes then stakes[sender] else 0;
      if amount > current {
        return Err(Std(GenericErr(UNSTAKE_TOO_MUCH)));
      }
      var newStake := current - amount;
      if newStake == 0 {
        stakes := stakes - {sender};
      } else {
        stakes := stakes[sender := newStake];
      }
      var bankMsg := Send(sender, [Coin(DENOM, amount)]);
      r := Ok(Response([Handlers.Action("unstake"),
                        Attribute("staker", Text(sender)),
                        Attribute("amount", Num(amount))], [bankMsg]));
    }

    method Execute(info: MessageInfo, msg: ExecuteMsg) returns (r: ExecResult)
      requires Valid()
      modifies this
      ensures Valid()
      ensures Handlers.Step(Snapshot(), r) == Handlers.Execute(old(Snapshot()), info, msg)
    {
      match msg
      case Increment => r := Increment();
      case Reset(count) => r := Reset(info, count);
      case Stake(amount) => r := Stake(info, amount);
      case Unstake(amount) => r := Unstake(info, amount);
    }
  }
}
