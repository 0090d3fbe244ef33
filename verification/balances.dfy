/** The native Balances contract of the pRuntime enclave.

    The contract keeps a `total_issuance` counter and a map from
    account to free balance. Three commands change that state (Transfer,
    TransferToChain, TransferToTee) and two queries read it (FreeBalance,
    TotalIssuance).

    The behaviour of each command is first given as a pure step function over a
    `Ledger` value; the `Balances` class then holds the same state in mutable
    fields and its methods update those fields in place, each proved to move the
    object exactly as the step function moves the ledger. The conservation
    invariant (the sum of all balances equals the total issuance) is proved
    about the step functions and kept as the class invariant.
 */
module BalancesContract {
  import opened LedgerSum

  /** A chain account (an AccountId32 on the chain side); only compared here. */
  type AccountId = seq<bv8>

  /** The largest value of the chain's `Balance` type, a 128-bit unsigned integer. */
  const MaxBalance: nat := 0xffff_ffff_ffff_ffff_ffff_ffff_ffff_ffff

  datatype Option<T> = None | Some(value: T)

  /** Where a command came from: a chain pallet, a signed account, or another
      sender (a contract, a worker, ...). */
  datatype MessageOrigin = Pallet(name: seq<bv8>) | AccountOrigin(id: AccountId) | OtherOrigin
  {
    /** The account that signed the message, if it came from one. */
    function Account(): Option<AccountId>
    {
      if AccountOrigin? then Some(id) else None
    }

    predicate IsPallet()
    {
      Pallet?
    }
  }

  datatype Command =
    | Transfer(dest: AccountId, value: nat)
    | TransferToChain(dest: AccountId, value: nat)
    | TransferToTee(who: AccountId, amount: nat)

  /** The errors a command of this contract can end with. */
  datatype TransactionError = BadOrigin | NoBalance | InsufficientBalance

  datatype TxResult = Ok | Err(error: TransactionError)

  /** The message TransferToChain sends to the chain: pay `amount` to `dest`. */
  datatype BalancesTransfer = BalancesTransfer(dest: AccountId, amount: nat)

  /** The contract's `Error` enum, carried in an error response. */
  datatype QueryError = NotAuthorized | Other(msg: string)

  datatype Request = FreeBalance(account: AccountId) | TotalIssuance

  datatype Response =
    | FreeBalance(balance: nat)
    | TotalIssuance(totalIssuance: nat)
    | Error(reason: QueryError)

  /** The contract's state as a value. */
  datatype Ledger = Ledger(totalIssuance: nat, accounts: map<AccountId, nat>)

  /** What a command leaves behind: the new state, its result and the message
      it sent to the chain, if any. */
  datatype Outcome = Outcome(ledger: Ledger, result: TxResult, sent: Option<BalancesTransfer>)

  /** Conservation: the balances add up to the total issuance. */
  ghost predicate Conserved(l: Ledger)
  {
    Sum(l.accounts) == l.totalIssuance
  }

  /** The state right after `Balances::new`. */
  function Genesis(): (l: Ledger)
    ensures l.totalIssuance == 0
    ensures l.accounts == map[]
    ensures Conserved(l)
  {
    Ledger(0, map[])
  }

  /** Adds `v` to the balance of `a`, creating the entry with `v` when absent. */
  function Credit(m: map<AccountId, nat>, a: AccountId, v: nat): (m': map<AccountId, nat>)
    ensures m'.Keys == m.Keys + {a}
    ensures BalanceOf(m', a) == BalanceOf(m, a) + v
    ensures forall b :: b != a ==> BalanceOf(m', b) == BalanceOf(m, b)
  {
    if a in m then m[a := m[a] + v] else m[a := v]
  }

  /** Transfer: move `value` from the signing account to `dest`. */
  function TransferStep(l: Ledger, origin: MessageOrigin, dest: AccountId, value: nat): (r: Outcome)
    ensures r.sent == None && r.ledger.totalIssuance == l.totalIssuance
    ensures r.result == Err(BadOrigin) <==> origin.Account() == None
    ensures r.result == Err(NoBalance) <==> (origin.Account().Some? && origin.Account().value !in l.accounts)
    ensures r.result == Err(InsufficientBalance) <==>
              (origin.Account().Some? && origin.Account().value in l.accounts
               && l.accounts[origin.Account().value] < value)
    ensures r.result != Ok ==> r.ledger == l
    ensures r.result == Ok ==>
              var src := origin.Account().value;
              && r.ledger.accounts.Keys == l.accounts.Keys + {dest}
              && (src != dest ==> BalanceOf(r.ledger.accounts, src) == BalanceOf(l.accounts, src) - value)
              && (src != dest ==> BalanceOf(r.ledger.accounts, dest) == BalanceOf(l.accounts, dest) + value)
              && (src == dest ==> r.ledger.accounts == l.accounts)
              && forall a :: a != src && a != dest ==> BalanceOf(r.ledger.accounts, a) == BalanceOf(l.accounts, a)
  {
    match origin.Account()
    case None => Outcome(l, Err(BadOrigin), None)
    case Some(src) =>
      if src !in l.accounts then Outcome(l, Err(NoBalance), None)
      else if l.accounts[src] < value then Outcome(l, Err(InsufficientBalance), None)
      else
        var debited := l.accounts[src := l.accounts[src] - value];
        Outcome(Ledger(l.totalIssuance, Credit(debited, dest, value)), Ok, None)
  }

  /** TransferToChain: burn `value` from the signing account and ask the chain
      to pay it to `dest`. The issuance can only be lowered safely because
      conservation bounds it from below by the source balance. */
  function TransferToChainStep(l: Ledger, origin: MessageOrigin, dest: AccountId, value: nat): (r: Outcome)
    requires Conserved(l)
    ensures r.result == Err(BadOrigin) <==> origin.Account() == None
    ensures r.result == Err(NoBalance) <==> (origin.Account().Some? && origin.Account().value !in l.accounts)
    ensures r.result == Err(InsufficientBalance) <==>
              (origin.Account().Some? && origin.Account().value in l.accounts
               && l.accounts[origin.Account().value] < value)
    ensures r.result != Ok ==> r.ledger == l && r.sent == None
    ensures r.result == Ok ==>
              var src := origin.Account().value;
              && r.sent == Some(BalancesTransfer(dest, value))
              && r.ledger.totalIssuance + value == l.totalIssuance
              && r.ledger.accounts.Keys == l.accounts.Keys
              && r.ledger.accounts[src] + value == l.accounts[src]
              && forall a :: a != src ==> BalanceOf(r.ledger.accounts, a) == BalanceOf(l.accounts, a)
  {
    match origin.Account()
    case None => Outcome(l, Err(BadOrigin), None)
    case Some(src) =>
      if src !in l.accounts then Outcome(l, Err(NoBalance), None)
      else if l.accounts[src] < value then Outcome(l, Err(InsufficientBalance), None)
      else
        SumBound(l.accounts, src);
        var accounts := l.accounts[src := l.accounts[src] - value];
        Outcome(Ledger(l.totalIssuance - value, accounts), Ok, Some(BalancesTransfer(dest, value)))
  }

  /** TransferToTee: mint `amount` to `who`; only a pallet may ask for it. */
  function TransferToTeeStep(l: Ledger, origin: MessageOrigin, who: AccountId, amount: nat): (r: Outcome)
    ensures r.sent == None
    ensures r.result == Ok || r.result == Err(BadOrigin)
    ensures r.result == Ok <==> origin.IsPallet()
    ensures r.result != Ok ==> r.ledger == l
    ensures r.result == Ok ==>
              && r.ledger.totalIssuance == l.totalIssuance + amount
              && r.ledger.accounts.Keys == l.accounts.Keys + {who}
              && BalanceOf(r.ledger.accounts, who) == BalanceOf(l.accounts, who) + amount
              && forall a :: a != who ==> BalanceOf(r.ledger.accounts, a) == BalanceOf(l.accounts, a)
  {
    if !origin.IsPallet() then Outcome(l, Err(BadOrigin), None)
    else Outcome(Ledger(l.totalIssuance + amount, Credit(l.accounts, who, amount)), Ok, None)
  }

  /** `handle_command`: dispatch a command to its step. */
  function Step(l: Ledger, origin: MessageOrigin, cmd: Command): (r: Outcome)
    requires Conserved(l)
    ensures r.result != Ok ==> r.ledger == l && r.sent == None
    ensures r.sent.Some? ==> cmd.TransferToChain? && r.sent == Some(BalancesTransfer(cmd.dest, cmd.value))
  {
    match cmd
    case Transfer(dest, value) => TransferStep(l, origin, dest, value)
    case TransferToChain(dest, value) => TransferToChainStep(l, origin, dest, value)
    case TransferToTee(who, amount) => TransferToTeeStep(l, origin, who, amount)
  }

  /** Every command keeps the balances summing to the total issuance. */
  lemma {:induction false} StepConserves(l: Ledger, origin: MessageOrigin, cmd: Command)
    requires Conserved(l)
    ensures Conserved(Step(l, origin, cmd).ledger)
  {
    var r := Step(l, origin, cmd);
    if r.result == Ok {
      match cmd
      case Transfer(dest, value) =>
        var src := origin.Account().value;
        var debited := l.accounts[src := l.accounts[src] - value];
        SumUpdate(l.accounts, src, l.accounts[src] - value);
        SumUpdate(debited, dest, BalanceOf(debited, dest) + value);
        assert Credit(debited, dest, value) == debited[dest := BalanceOf(debited, dest) + value];
      case TransferToChain(dest, value) =>
        var src := origin.Account().value;
        SumUpdate(l.accounts, src, l.accounts[src] - value);
      case TransferToTee(who, amount) =>
        SumUpdate(l.accounts, who, BalanceOf(l.accounts, who) + amount);
        assert Credit(l.accounts, who, amount) == l.accounts[who := BalanceOf(l.accounts, who) + amount];
    }
  }

  /** Under conservation no single balance exceeds the total issuance. */
  lemma BalanceAtMostIssuance(l: Ledger, a: AccountId)
    requires Conserved(l)
    ensures BalanceOf(l.accounts, a) <= l.totalIssuance
  {
    SumBound(l.accounts, a);
  }

  /** The chain's `Balance` is 128 bits wide and the contract's `+=` does not
      check for overflow. Under conservation this is harmless for Transfer and
      TransferToChain, and for TransferToTee as long as the new issuance fits:
      then every balance after the step fits too. */
  lemma StepStaysInRange(l: Ledger, origin: MessageOrigin, cmd: Command)
    requires Conserved(l) && l.totalIssuance <= MaxBalance
    requires cmd.TransferToTee? && origin.IsPallet() ==> l.totalIssuance + cmd.amount <= MaxBalance
    ensures Step(l, origin, cmd).ledger.totalIssuance <= MaxBalance
    ensures forall a :: BalanceOf(Step(l, origin, cmd).ledger.accounts, a) <= MaxBalance
  {
    var l' := Step(l, origin, cmd).ledger;
    StepConserves(l, origin, cmd);
    forall a ensures BalanceOf(l'.accounts, a) <= MaxBalance {
      BalanceAtMostIssuance(l', a);
    }
  }

  /** The state after a sequence of commands, each with its origin. */
  ghost function Replay(l: Ledger, cmds: seq<(MessageOrigin, Command)>): (r: Ledger)
    requires Conserved(l)
    ensures Conserved(r)
    decreases |cmds|
  {
    if cmds == [] then l
    else
      StepConserves(l, cmds[0].0, cmds[0].1);
      Replay(Step(l, cmds[0].0, cmds[0].1).ledger, cmds[1..])
  }

  /** Starting from a new contract, any history of commands leaves every
      balance at most the total issuance. */
  lemma ReplayFromGenesisBounded(cmds: seq<(MessageOrigin, Command)>, a: AccountId)
    ensures BalanceOf(Replay(Genesis(), cmds).accounts, a) <= Replay(Genesis(), cmds).totalIssuance
  {
    BalanceAtMostIssuance(Replay(Genesis(), cmds), a);
  }

  /** Minting to an account and then burning the same amount from it restores
      every balance and the issuance, and sends the burnt amount to the chain. */
  lemma TeeThenChainRestores(l: Ledger, pallet: MessageOrigin, who: AccountId, dest: AccountId, amount: nat)
    requires Conserved(l) && pallet.IsPallet()
    ensures Conserved(Step(l, pallet, TransferToTee(who, amount)).ledger)
    ensures
      var minted := Step(l, pallet, TransferToTee(who, amount));
      var burnt := Step(minted.ledger, AccountOrigin(who), TransferToChain(dest, amount));
      && burnt.result == Ok
      && burnt.sent == Some(BalancesTransfer(dest, amount))
      && burnt.ledger.totalIssuance == l.totalIssuance
      && forall a :: BalanceOf(burnt.ledger.accounts, a) == BalanceOf(l.accounts, a)
  {
    StepConserves(l, pallet, TransferToTee(who, amount));
  }

  /** A transfer followed by the transfer of the same value back restores
      every balance. */
  lemma TransferBackRestores(l: Ledger, a: AccountId, b: AccountId, value: nat)
    requires Conserved(l)
    requires a in l.accounts && l.accounts[a] >= value
    ensures Conserved(Step(l, AccountOrigin(a), Transfer(b, value)).ledger)
    ensures
      var there := Step(l, AccountOrigin(a), Transfer(b, value));
      var back := Step(there.ledger, AccountOrigin(b), Transfer(a, value));
      && there.result == Ok && back.result == Ok
      && back.ledger.totalIssuance == l.totalIssuance
      && forall x :: BalanceOf(back.ledger.accounts, x) == BalanceOf(l.accounts, x)
  {
    StepConserves(l, AccountOrigin(a), Transfer(b, value));
  }

  /** The contract object: its fields are updated in place by the commands. */
  class Balances {
    var totalIssuance: nat
    var accounts: map<AccountId, nat>

    /** The object's state as a ledger value. */
    function Snapshot(): Ledger
      reads this
    {
      Ledger(totalIssuance, accounts)
    }

    ghost predicate Valid()
      reads this
    {
      Conserved(Snapshot())
    }

    /** `Balances::new`: no issuance and no accounts. */
    constructor ()
      ensures Valid()
      ensures totalIssuance == 0 && accounts == map[]
      ensures Snapshot() == Genesis()
    {
      totalIssuance := 0;
      accounts := map[];
    }

    method HandleTransfer(origin: MessageOrigin, dest: AccountId, value: nat) returns (r: TxResult)
      requires Valid()
      modifies this
      ensures Valid()
      ensures var out := TransferStep(old(Snapshot()), origin, dest, value);
              Snapshot() == out.ledger && r == out.result
    {
      ghost var l := Snapshot();
      match origin.Account() {
        case None =>
          return Err(BadOrigin);
        case Some(src) =>
          if src !in accounts {
            return Err(NoBalance);
          }
          var srcAmount := accounts[src];
          if srcAmount < value {
            return Err(InsufficientBalance);
          }
          accounts := accounts[src := srcAmount - value];
          if dest in accounts {
            accounts := accounts[dest := accounts[dest] + value];
          } else {
            accounts := accounts[dest := value];
          }
          r := Ok;
      }
      StepConserves(l, origin, Transfer(dest, value));
    }

    method HandleTransferToChain(origin: MessageOrigin, dest: AccountId, value: nat)
      returns (r: TxResult, sent: Option<BalancesTransfer>)
      requires Valid()
      modifies this
      ensures Valid()
      ensures var out := TransferToChainStep(old(Snapshot()), origin, dest, value);
              Snapshot() == out.ledger && r == out.result && sent == out.sent
    {
      ghost var l := Snapshot();
      sent := None;
      match origin.Account() {
        case None =>
          return Err(BadOrigin), None;
        case Some(src) =>
          if src !in accounts {
            return Err(NoBalance), None;
          }
          var srcAmount := accounts[src];
          if srcAmount < value {
            return Err(InsufficientBalance), None;
          }
          BalanceAtMostIssuance(l, src);
          accounts := accounts[src := srcAmount - value];
          totalIssuance := totalIssuance - value;
          sent := Some(BalancesTransfer(dest, value));
          r := Ok;
      }
      StepConserves(l, origin, TransferToChain(dest, value));
    }

    method HandleTransferToTee(origin: MessageOrigin, who: AccountId, amount: nat) returns (r: TxResult)
      requires Valid()
      modifies this
      ensures Valid()
      ensures var out := TransferToTeeStep(old(Snapshot()), origin, who, amount);
              Snapshot() == out.ledger && r == out.result
    {
      ghost var l := Snapshot();
      if !origin.IsPallet() {
        return Err(BadOrigin);
      }
      if who in accounts {
        accounts := accounts[who := accounts[who] + amount];
      } else {
        accounts := accounts[who := amount];
      }
      totalIssuance := totalIssuance + amount;
      r := Ok;
      StepConserves(l, origin, TransferToTee(who, amount));
    }

    /** `handle_command`: run one command against the object. */
    method HandleCommand(origin: MessageOrigin, cmd: Command) returns (r: TxResult, sent: Option<BalancesTransfer>)
      requires Valid()
      modifies this
      ensures Valid()
      ensures var out := Step(old(Snapshot()), origin, cmd);
              Snapshot() == out.ledger && r == out.result && sent == out.sent
    {
      match cmd {
        case Transfer(dest, value) =>
          r := HandleTransfer(origin, dest, value);
          sent := None;
        case TransferToChain(dest, value) =>
          r, sent := HandleTransferToChain(origin, dest, value);
        case TransferToTee(who, amount) =>
          r := HandleTransferToTee(origin, who, amount);
          sent := None;
      }
    }

    /** `handle_query`: answer a read-only request from `origin`. Only the owner
        of an account may read its free balance; anybody may read the total
        issuance. */
    function HandleQuery(origin: Option<AccountId>, req: Request): (r: Response)
      reads this
      ensures r.Error? <==> (req.FreeBalance? && origin != Some(req.account))
      ensures r.Error? ==> r.reason == NotAuthorized
      ensures req.FreeBalance? && origin == Some(req.account) ==>
                r == Response.FreeBalance(BalanceOf(accounts, req.account))
      ensures req.TotalIssuance? ==> r == Response.TotalIssuance(totalIssuance)
      ensures Valid() && r.FreeBalance? ==> r.balance <= totalIssuance
    {
      match req
      case FreeBalance(account) =>
        if origin == None || origin.value != account then Response.Error(NotAuthorized)
        else
          var balance := if account in accounts then accounts[account] else 0;
          SumBound(accounts, account);
          Response.FreeBalance(balance)
      case TotalIssuance =>
        Response.TotalIssuance(totalIssuance)
    }
  }
}
