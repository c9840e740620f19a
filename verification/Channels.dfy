/** User channel states: how the next state is built from the last one and how each
    transition moves the home and the escrow ledger. */
module Channels {
  import opened Options
  import opened Decimals

  type Wallet = string
  type Asset = string
  type Token = string
  type ChainId = nat

  /** What the program computes with a hash, as injective constructors. Raw is any other
      string a caller may send in place of an identifier. */
  datatype Id =
    | ZeroHash
    | Raw(text: string)
    | StateId(wallet: Wallet, asset: Asset, epoch: nat, version: nat)
    | HomeChannelId(node: Wallet, user: Wallet, homeAsset: Asset, nonce: nat, challenge: nat, validators: string)
    | EscrowChannelId(home: Id, stateVersion: nat)
    | TransactionId(account: Account, state: Id)
    | SessionId(application: string, members: seq<(Wallet, nat)>, quorum: nat, sessionNonce: nat)
    | BatchId(sessions: seq<(Id, nat)>)
    | RebalanceId(batch: Id, session: Id, rebalanced: Asset)

  /** An account that an amount moves from or to: a user wallet, or a channel, a session
      or a batch known by its identifier. */
  datatype Account = WalletAccount(wallet: Wallet) | HashAccount(id: Id)

  datatype Kind =
    | Void
    | Acknowledgement
    | HomeDeposit
    | HomeWithdrawal
    | EscrowDeposit
    | EscrowWithdraw
    | TransferSend
    | TransferReceive
    | Commit
    | Release
    | Migrate
    | EscrowLock
    | MutualLock
    | Finalize
    | OtherKind(code: nat)

  datatype Transition = Transition(kind: Kind, txId: Id, account: Account, amount: Decimal)

  const VOID_TRANSITION := Transition(Void, Raw(""), HashAccount(Raw("")), ZERO)

  datatype Ledger = Ledger(
    token: Token,
    chain: ChainId,
    userBalance: real,
    userNetFlow: real,
    nodeBalance: real,
    nodeNetFlow: real)

  const EMPTY_LEDGER := Ledger("", 0, 0.0, 0.0, 0.0, 0.0)

  datatype State = State(
    id: Id,
    transition: Transition,
    asset: Asset,
    wallet: Wallet,
    epoch: nat,
    version: nat,
    homeChannel: Option<Id>,
    escrowChannel: Option<Id>,
    home: Ledger,
    escrow: Option<Ledger>,
    userSigned: bool,
    nodeSigned: bool)

  function VoidState(wallet: Wallet, asset: Asset): State {
    State(Raw(""), VOID_TRANSITION, asset, wallet, 0, 0, None, None, EMPTY_LEDGER, None, false, false)
  }

  predicate Balanced(l: Ledger) {
    l.userBalance + l.nodeBalance == l.userNetFlow + l.nodeNetFlow
  }

  predicate ValidLedger(l: Ledger) {
    l.token != "" && l.chain != 0 && l.userBalance >= 0.0 && l.nodeBalance >= 0.0 && Balanced(l)
  }

  predicate IsEscrowKind(kind: Kind) {
    kind == MutualLock || kind == EscrowDeposit || kind == EscrowLock || kind == EscrowWithdraw
  }

  predicate IsLock(kind: Kind) {
    kind == MutualLock || kind == EscrowLock
  }

  /** A finalized state is followed by version 0 of the next epoch, with no channel. Any
      other state is followed by its next version, which keeps the channel and the home
      ledger, and keeps the escrow ledger unless the escrow has just been completed. */
  function NextState(s: State): State {
    var last := s.transition.kind;
    var next :=
      if last == Finalize then
        State(StateId(s.wallet, s.asset, s.epoch + 1, 0), VOID_TRANSITION, s.asset, s.wallet,
              s.epoch + 1, 0, None, None, EMPTY_LEDGER, None, false, false)
      else
        State(StateId(s.wallet, s.asset, s.epoch, s.version + 1), VOID_TRANSITION, s.asset, s.wallet,
              s.epoch, s.version + 1, s.homeChannel, s.escrowChannel, s.home, None, false, false);
    if s.escrow.None? then next
    else if last == EscrowDeposit || last == EscrowWithdraw then next.(escrowChannel := None, escrow := None)
    else next.(escrow := s.escrow)
  }

  /** A transition to apply, with the arguments that its method takes. */
  datatype Request =
    | Acknowledge
    | DepositHome(amount: Decimal)
    | WithdrawHome(amount: Decimal)
    | SendTransfer(recipient: Account, amount: Decimal)
    | ReceiveTransfer(sender: Account, amount: Decimal, txId: Id)
    | CommitTo(session: Account, amount: Decimal)
    | ReleaseFrom(session: Account, amount: Decimal)
    | LockMutual(chain: ChainId, token: Token, amount: Decimal)
    | DepositEscrow(amount: Decimal)
    | LockEscrow(chain: ChainId, token: Token, amount: Decimal)
    | WithdrawEscrow(amount: Decimal)
    | MigrateHome(amount: Decimal)
    | FinalizeHome

  function OwnTransition(s: State, kind: Kind, account: Account, amount: Decimal): Transition {
    Transition(kind, TransactionId(account, s.id), account, amount)
  }

  /** Moves between the user and the rest of the node: both the user's balance and the
      node's net flow change by x. */
  function Shift(l: Ledger, x: real): Ledger {
    l.(userBalance := l.userBalance + x, nodeNetFlow := l.nodeNetFlow + x)
  }

  /** Moves between the user and the chain: the user's balance and net flow change by x. */
  function Fund(l: Ledger, x: real): Ledger {
    l.(userBalance := l.userBalance + x, userNetFlow := l.userNetFlow + x)
  }

  /** An incoming transition: its amount moves from the rest of the node to the user. */
  function Receive(s: State, t: Transition): State {
    s.(transition := t, home := Shift(s.home, t.amount.value))
  }

  /** The state that a request turns s into, or None if the request is refused. */
  function Apply(s: State, r: Request): Option<State> {
    if s.transition.kind != Void then None
    else match r
      case Acknowledge =>
        Some(s.(transition := Transition(Acknowledgement, ZeroHash, HashAccount(ZeroHash), ZERO)))
      case DepositHome(amount) =>
        if s.homeChannel.None? then None
        else Some(s.(transition := OwnTransition(s, HomeDeposit, HashAccount(s.homeChannel.value), amount),
                     home := Fund(s.home, amount.value)))
      case WithdrawHome(amount) =>
        if s.homeChannel.None? then None
        else Some(s.(transition := OwnTransition(s, HomeWithdrawal, HashAccount(s.homeChannel.value), amount),
                     home := Fund(s.home, -amount.value)))
      case SendTransfer(recipient, amount) =>
        Some(s.(transition := OwnTransition(s, TransferSend, recipient, amount),
                home := Shift(s.home, -amount.value)))
      case ReceiveTransfer(sender, amount, txId) =>
        Some(Receive(s, Transition(TransferReceive, txId, sender, amount)))
      case CommitTo(session, amount) =>
        Some(s.(transition := OwnTransition(s, Commit, session, amount),
                home := Shift(s.home, -amount.value)))
      case ReleaseFrom(session, amount) =>
        Some(Receive(s, OwnTransition(s, Release, session, amount)))
      case LockMutual(chain, token, amount) =>
        if s.homeChannel.None? || chain == 0 || token == "" then None
        else
          var channel := EscrowChannelId(s.homeChannel.value, s.version);
          Some(s.(escrowChannel := Some(channel),
                  transition := OwnTransition(s, MutualLock, HashAccount(channel), amount),
                  home := s.home.(nodeBalance := s.home.nodeBalance + amount.value,
                                  nodeNetFlow := s.home.nodeNetFlow + amount.value),
                  escrow := Some(Ledger(token, chain, amount.value, amount.value, 0.0, 0.0))))
      case DepositEscrow(amount) =>
        if s.escrowChannel.None? || s.escrow.None? then None
        else
          Some(s.(transition := OwnTransition(s, EscrowDeposit, HashAccount(s.escrowChannel.value), amount),
                  home := s.home.(userBalance := s.home.userBalance + amount.value, nodeBalance := 0.0),
                  escrow := Some(Shift(s.escrow.value, -amount.value))))
      case LockEscrow(chain, token, amount) =>
        if s.homeChannel.None? || chain == 0 || token == "" || s.home.userBalance < amount.value then None
        else
          var channel := EscrowChannelId(s.homeChannel.value, s.version);
          Some(s.(escrowChannel := Some(channel),
                  transition := OwnTransition(s, EscrowLock, HashAccount(channel), amount),
                  home := s.home.(nodeBalance := 0.0),
                  escrow := Some(Ledger(token, chain, 0.0, 0.0, amount.value, amount.value))))
      case WithdrawEscrow(amount) =>
        if s.escrowChannel.None? || s.escrow.None? then None
        else
          var l := s.escrow.value;
          Some(s.(transition := OwnTransition(s, EscrowWithdraw, HashAccount(s.escrowChannel.value), amount),
                  home := Shift(s.home, -amount.value),
                  escrow := Some(l.(userNetFlow := l.userNetFlow - amount.value,
                                    nodeBalance := l.nodeBalance - amount.value))))
      case MigrateHome(amount) => None
      case FinalizeHome =>
        if s.homeChannel.None? then None
        else
          var amount := Decimal(s.home.userBalance, 0);
          Some(s.(transition := OwnTransition(s, Finalize, HashAccount(s.homeChannel.value), amount),
                  home := Fund(s.home, -s.home.userBalance)))
  }

  /** A request either is refused and changes nothing, or turns before into what Apply says. */
  predicate Outcome(before: State, r: Request, ok: bool, after: State) {
    match Apply(before, r)
    case Some(s) => ok && after == s
    case None => !ok && after == before
  }

  /** A state under construction, which the Apply methods update in place. */
  class MutableState {
    const id: Id
    const asset: Asset
    const wallet: Wallet
    const epoch: nat
    const version: nat
    var transition: Transition
    var homeChannel: Option<Id>
    var escrowChannel: Option<Id>
    var home: Ledger
    var escrow: Option<Ledger>
    var userSigned: bool
    var nodeSigned: bool

    constructor (s: State)
      ensures Value() == s
    {
      id, asset, wallet, epoch, version := s.id, s.asset, s.wallet, s.epoch, s.version;
      transition, homeChannel, escrowChannel := s.transition, s.homeChannel, s.escrowChannel;
      home, escrow := s.home, s.escrow;
      userSigned, nodeSigned := s.userSigned, s.nodeSigned;
    }

    function Value(): State
      reads this
    {
      State(id, transition, asset, wallet, epoch, version, homeChannel, escrowChannel, home, escrow,
            userSigned, nodeSigned)
    }

    /** Takes over the channel, and the chain and token of the home ledger, of another state. */
    method AdoptChannel(channel: Option<Id>, chain: ChainId, token: Token)
      modifies this
      ensures Value() == old(Value()).(homeChannel := channel, home := old(home).(chain := chain, token := token))
    {
      homeChannel := channel;
      home := home.(chain := chain, token := token);
    }

    method SetNodeSignature()
      modifies this
      ensures Value() == old(Value()).(nodeSigned := true)
    {
      nodeSigned := true;
    }

    method ApplyAcknowledgement() returns (ok: bool)
      modifies this
      ensures Outcome(old(Value()), Acknowledge, ok, Value())
    {
      if transition.kind != Void { return false; }
      transition := Transition(Acknowledgement, ZeroHash, HashAccount(ZeroHash), ZERO);
      return true;
    }

    method ApplyHomeDeposit(amount: Decimal) returns (ok: bool)
      modifies this
      ensures Outcome(old(Value()), DepositHome(amount), ok, Value())
    {
      if transition.kind != Void || homeChannel.None? { return false; }
      var account := HashAccount(homeChannel.value);
      transition := Transition(HomeDeposit, TransactionId(account, id), account, amount);
      home := home.(userNetFlow := home.userNetFlow + amount.value);
      home := home.(userBalance := home.userBalance + amount.value);
      return true;
    }

    method ApplyHomeWithdrawal(amount: Decimal) returns (ok: bool)
      modifies this
      ensures Outcome(old(Value()), WithdrawHome(amount), ok, Value())
    {
      if transition.kind != Void || homeChannel.None? { return false; }
      var account := HashAccount(homeChannel.value);
      transition := Transition(HomeWithdrawal, TransactionId(account, id), account, amount);
      home := home.(userNetFlow := home.userNetFlow - amount.value);
      home := home.(userBalance := home.userBalance - amount.value);
      return true;
    }

    method ApplyTransferSend(recipient: Account, amount: Decimal) returns (ok: bool)
      modifies this
      ensures Outcome(old(Value()), SendTransfer(recipient, amount), ok, Value())
    {
      if transition.kind != Void { return false; }
      transition := Transition(TransferSend, TransactionId(recipient, id), recipient, amount);
      home := home.(userBalance := home.userBalance - amount.value);
      home := home.(nodeNetFlow := home.nodeNetFlow - amount.value);
      return true;
    }

    method ApplyTransferReceive(sender: Account, amount: Decimal, txId: Id) returns (ok: bool)
      modifies this
      ensures Outcome(old(Value()), ReceiveTransfer(sender, amount, txId), ok, Value())
    {
      if transition.kind != Void { return false; }
      transition := Transition(TransferReceive, txId, sender, amount);
      home := home.(userBalance := home.userBalance + amount.value);
      home := home.(nodeNetFlow := home.nodeNetFlow + amount.value);
      return true;
    }

    method ApplyCommit(session: Account, amount: Decimal) returns (ok: bool)
      modifies this
      ensures Outcome(old(Value()), CommitTo(session, amount), ok, Value())
    {
      if transition.kind != Void { return false; }
      transition := Transition(Commit, TransactionId(session, id), session, amount);
      home := home.(userBalance := home.userBalance - amount.value);
      home := home.(nodeNetFlow := home.nodeNetFlow - amount.value);
      return true;
    }

    method ApplyRelease(session: Account, amount: Decimal) returns (ok: bool)
      modifies this
      ensures Outcome(old(Value()), ReleaseFrom(session, amount), ok, Value())
    {
      if transition.kind != Void { return false; }
      transition := Transition(Release, TransactionId(session, id), session, amount);
      home := home.(userBalance := home.userBalance + amount.value);
      home := home.(nodeNetFlow := home.nodeNetFlow + amount.value);
      return true;
    }

    method ApplyMutualLock(chain: ChainId, token: Token, amount: Decimal) returns (ok: bool)
      modifies this
      ensures Outcome(old(Value()), LockMutual(chain, token, amount), ok, Value())
    {
      if transition.kind != Void || homeChannel.None? || chain == 0 || token == "" { return false; }
      var channel := EscrowChannelId(homeChannel.value, version);
      escrowChannel := Some(channel);
      var account := HashAccount(channel);
      transition := Transition(MutualLock, TransactionId(account, id), account, amount);
      home := home.(nodeBalance := home.nodeBalance + amount.value);
      home := home.(nodeNetFlow := home.nodeNetFlow + amount.value);
      escrow := Some(Ledger(token, chain, amount.value, amount.value, 0.0, 0.0));
      return true;
    }

    method ApplyEscrowDeposit(amount: Decimal) returns (ok: bool)
      modifies this
      ensures Outcome(old(Value()), DepositEscrow(amount), ok, Value())
    {
      if transition.kind != Void || escrowChannel.None? || escrow.None? { return false; }
      var account := HashAccount(escrowChannel.value);
      transition := Transition(EscrowDeposit, TransactionId(account, id), account, amount);
      home := home.(userBalance := home.userBalance + amount.value);
      home := home.(nodeBalance := 0.0);
      var l := escrow.value;
      escrow := Some(l.(userBalance := l.userBalance - amount.value, nodeNetFlow := l.nodeNetFlow - amount.value));
      return true;
    }

    method ApplyEscrowLock(chain: ChainId, token: Token, amount: Decimal) returns (ok: bool)
      modifies this
      ensures Outcome(old(Value()), LockEscrow(chain, token, amount), ok, Value())
    {
      if transition.kind != Void || homeChannel.None? || chain == 0 || token == "" { return false; }
      if home.userBalance < amount.value { return false; }
      var channel := EscrowChannelId(homeChannel.value, version);
      escrowChannel := Some(channel);
      var account := HashAccount(channel);
      transition := Transition(EscrowLock, TransactionId(account, id), account, amount);
      home := home.(nodeBalance := 0.0);
      escrow := Some(Ledger(token, chain, 0.0, 0.0, amount.value, amount.value));
      return true;
    }

    method ApplyEscrowWithdraw(amount: Decimal) returns (ok: bool)
      modifies this
      ensures Outcome(old(Value()), WithdrawEscrow(amount), ok, Value())
    {
      if transition.kind != Void || escrowChannel.None? || escrow.None? { return false; }
      var account := HashAccount(escrowChannel.value);
      transition := Transition(EscrowWithdraw, TransactionId(account, id), account, amount);
      home := home.(userBalance := home.userBalance - amount.value);
      home := home.(nodeNetFlow := home.nodeNetFlow - amount.value);
      var l := escrow.value;
      escrow := Some(l.(userNetFlow := l.userNetFlow - amount.value, nodeBalance := l.nodeBalance - amount.value));
      return true;
    }

    method ApplyMigrate(amount: Decimal) returns (ok: bool)
      modifies this
      ensures Outcome(old(Value()), MigrateHome(amount), ok, Value())
    {
      return false;
    }

    method ApplyFinalize() returns (ok: bool)
      modifies this
      ensures Outcome(old(Value()), FinalizeHome, ok, Value())
    {
      if transition.kind != Void || homeChannel.None? { return false; }
      var account := HashAccount(homeChannel.value);
      transition := Transition(Finalize, TransactionId(account, id), account, Decimal(home.userBalance, 0));
      home := home.(userNetFlow := home.userNetFlow - home.userBalance);
      home := home.(userBalance := 0.0);
      return true;
    }
  }
}
