/** The transaction records that accompany state transitions and rebalances. */
module Transactions {
  import opened Options
  import opened Channels

  datatype TxKind = Transfer(kind: Kind) | Rebalanced

  datatype Tx = Tx(id: Id, asset: Asset, kind: TxKind, from: Account, to: Account,
                   senderState: Option<Id>, receiverState: Option<Id>, amount: real)

  /** The accounts that the amount of a transition moves between. */
  function Accounts(sender: Option<State>, receiver: Option<State>, t: Transition): Option<(Account, Account)>
    requires sender.Some? || (t.kind == Release && receiver.Some?)
  {
    match t.kind
    case HomeDeposit =>
      if sender.value.homeChannel.None? then None
      else Some((HashAccount(sender.value.homeChannel.value), WalletAccount(sender.value.wallet)))
    case HomeWithdrawal =>
      if sender.value.homeChannel.None? then None
      else Some((WalletAccount(sender.value.wallet), HashAccount(sender.value.homeChannel.value)))
    case EscrowDeposit =>
      if sender.value.escrowChannel.None? then None
      else Some((HashAccount(sender.value.escrowChannel.value), WalletAccount(sender.value.wallet)))
    case EscrowWithdraw => ChannelAccounts(sender.value)
    case MutualLock => ChannelAccounts(sender.value)
    case EscrowLock => ChannelAccounts(sender.value)
    case Migrate => ChannelAccounts(sender.value)
    case TransferSend =>
      if receiver.None? then None else Some((WalletAccount(sender.value.wallet), t.account))
    case Commit => Some((WalletAccount(sender.value.wallet), t.account))
    case Release =>
      if receiver.None? then None else Some((t.account, WalletAccount(receiver.value.wallet)))
    case Finalize =>
      if sender.value.homeChannel.None? then None
      else Some((WalletAccount(sender.value.wallet), HashAccount(sender.value.homeChannel.value)))
    case Void => None
    case Acknowledgement => None
    case TransferReceive => None
    case OtherKind(_) => None
  }

  function ChannelAccounts(s: State): Option<(Account, Account)> {
    if s.escrowChannel.None? || s.homeChannel.None? then None
    else Some((HashAccount(s.homeChannel.value), HashAccount(s.escrowChannel.value)))
  }

  function StateIdOf(s: Option<State>): Option<Id> {
    if s.None? then None else Some(s.value.id)
  }

  /** The record of a transition, under an identifier made from the receiver's new state if
      there is one, and from the sender's otherwise. */
  function NewTransaction(sender: Option<State>, receiver: Option<State>, t: Transition): (r: Option<Tx>)
    ensures r.Some? ==> (r.value.id.TransactionId?
                         && Some(r.value.id.state) == StateIdOf(if receiver.Some? then receiver else sender))
  {
    if sender.None? && (t.kind != Release || receiver.None?) then None
    else
      var asset := if sender.Some? then sender.value.asset else receiver.value.asset;
      match Accounts(sender, receiver, t)
      case None => None
      case Some((from, to)) =>
        var id := if receiver.Some? then TransactionId(from, receiver.value.id) else TransactionId(to, sender.value.id);
        Some(Tx(id, asset, Transfer(t.kind), from, to, StateIdOf(sender), StateIdOf(receiver), t.amount.value))
  }

  /** The record of a state that has just been built: a release is recorded for its receiver,
      anything else for its sender, a transfer together with the state issued to its recipient. */
  function RecordOf(s: State, issued: Option<State>): Option<Tx> {
    match s.transition.kind
    case Release => NewTransaction(None, Some(s), s.transition)
    case TransferSend => NewTransaction(Some(s), issued, s.transition)
    case _ => NewTransaction(Some(s), None, s.transition)
  }

  /** The record follows the money: the user is the recipient of what its balance gains and the
      origin of what it loses; otherwise the record is from the home channel to the escrow channel. */
  predicate FollowsBalance(b: State, s: State, t: Tx) {
    var own := WalletAccount(b.wallet);
    && t.asset == b.asset && t.amount == s.transition.amount.value
    && (t.to == own ==> s.home.userBalance == b.home.userBalance + t.amount)
    && (t.from == own ==> s.home.userBalance == b.home.userBalance - t.amount)
    && (t.to != own && t.from != own ==>
          IsEscrowKind(s.transition.kind) && s.escrowChannel.Some? && s.homeChannel.Some?
          && t.from == HashAccount(s.homeChannel.value) && t.to == HashAccount(s.escrowChannel.value))
  }

  lemma HomeRecord(b: State, r: Request, issued: Option<State>)
    requires Apply(b, r).Some? && (r.DepositHome? || r.WithdrawHome? || r.FinalizeHome?)
    ensures var s := Apply(b, r).value; RecordOf(s, issued).Some? && FollowsBalance(b, s, RecordOf(s, issued).value)
  {}

  lemma AccountRecord(b: State, r: Request, issued: Option<State>)
    requires Apply(b, r).Some?
    requires match r
      case SendTransfer(recipient, _) => recipient != WalletAccount(b.wallet) && issued.Some?
      case CommitTo(session, _) => session != WalletAccount(b.wallet)
      case ReleaseFrom(session, _) => session != WalletAccount(b.wallet)
      case _ => false
    ensures var s := Apply(b, r).value; RecordOf(s, issued).Some? && FollowsBalance(b, s, RecordOf(s, issued).value)
  {}

  lemma EscrowRecord(b: State, r: Request, issued: Option<State>)
    requires Apply(b, r).Some? && (b.escrowChannel.Some? ==> b.homeChannel.Some?)
    requires r.LockMutual? || r.DepositEscrow? || r.LockEscrow? || r.WithdrawEscrow?
    ensures var s := Apply(b, r).value; RecordOf(s, issued).Some? && FollowsBalance(b, s, RecordOf(s, issued).value)
  {}

  lemma NoRecord(b: State, r: Request, issued: Option<State>)
    requires Apply(b, r).Some? && (r.Acknowledge? || r.ReceiveTransfer?)
    ensures RecordOf(Apply(b, r).value, issued).None?
  {}

  /** Every transition but an acknowledgement and a receive is recorded, and follows the money. */
  lemma RecordFollowsBalance(b: State, r: Request, issued: Option<State>)
    requires Apply(b, r).Some?
    requires r.SendTransfer? ==> r.recipient != WalletAccount(b.wallet) && issued.Some?
    requires r.CommitTo? ==> r.session != WalletAccount(b.wallet)
    requires r.ReleaseFrom? ==> r.session != WalletAccount(b.wallet)
    requires b.escrowChannel.Some? ==> b.homeChannel.Some?
    ensures var s := Apply(b, r).value; var record := RecordOf(s, issued);
      && (record.None? <==> r.Acknowledge? || r.ReceiveTransfer?)
      && (record.Some? ==> FollowsBalance(b, s, record.value))
  {
    match r
    case Acknowledge => NoRecord(b, r, issued);
    case ReceiveTransfer(_, _, _) => NoRecord(b, r, issued);
    case DepositHome(_) => HomeRecord(b, r, issued);
    case WithdrawHome(_) => HomeRecord(b, r, issued);
    case FinalizeHome => HomeRecord(b, r, issued);
    case SendTransfer(_, _) => AccountRecord(b, r, issued);
    case CommitTo(_, _) => AccountRecord(b, r, issued);
    case ReleaseFrom(_, _) => AccountRecord(b, r, issued);
    case LockMutual(_, _, _) => EscrowRecord(b, r, issued);
    case DepositEscrow(_) => EscrowRecord(b, r, issued);
    case LockEscrow(_, _, _) => EscrowRecord(b, r, issued);
    case WithdrawEscrow(_) => EscrowRecord(b, r, issued);
    case MigrateHome(_) =>
  }

  /** The identifier that a transition carries is that of its record, except for deposits, from
      either channel, and for transfers: there the record is named after another account. */
  lemma RecordNamedByTransition(b: State, r: Request, issued: Option<State>)
    requires Apply(b, r).Some? && RecordOf(Apply(b, r).value, issued).Some?
    requires r.SendTransfer? ==> r.recipient != WalletAccount(b.wallet)
    ensures var s := Apply(b, r).value;
      RecordOf(s, issued).value.id == s.transition.txId
      <==> !r.DepositHome? && !r.DepositEscrow? && !r.SendTransfer?
  {}
}
