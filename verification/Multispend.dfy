/**
 * The replicated multispend state machine of one Matrix room: the stored records, and what
 * processing one room event does to them. Every member of the room folds the same ordered log
 * with these functions; `RoomTables` holds the same tables as fields that the handler updates.
 */
module Multispend {
  import opened Options
  import opened Ordered

  type UserId = nat
  type EventId = nat
  type PubKey = nat
  type Signature = nat
  type TxId = nat
  type FederationId = string

  // ---------------------------------------------------------------- stored records

  datatype Invitation = Invitation(
    signers: set<UserId>, threshold: nat, inviteCode: string, federationName: string)

  /** An invitation and the votes gathered so far. */
  datatype GroupInvitation = GroupInvitation(
    invitation: Invitation, proposer: UserId, pubkeys: map<UserId, PubKey>,
    rejections: set<UserId>, federationId: FederationId)

  /** The multi-signature account of the stability pool, before and after its checks. */
  datatype AccountUnchecked = AccountUnchecked(pubKeys: set<PubKey>, threshold: nat)

  predicate ValidAccount(raw: AccountUnchecked) {
    0 < raw.threshold <= |raw.pubKeys|
  }

  type Account = raw: AccountUnchecked | ValidAccount(raw) witness AccountUnchecked({0}, 1)

  /** A transfer out of an account. Decoding a request validates the account; `terms` is the rest of it. */
  datatype TransferRequest = TransferRequest(from: Account, terms: nat)

  datatype FinalizedGroup = FinalizedGroup(
    invitation: Invitation, proposer: UserId, pubkeys: map<UserId, PubKey>,
    account: Account, federationId: FederationId)

  datatype GroupStatus =
    | Finalized(inviteId: EventId, group: FinalizedGroup)
    | ActiveInvitation(inviteId: EventId)

  datatype Submission = Unknown | Accepted(txid: TxId) | TxRefused(error: string)

  datatype Withdrawal = Withdrawal(
    request: TransferRequest, description: string, signatures: map<UserId, Signature>,
    rejections: set<UserId>, submission: Submission, sender: UserId)

  datatype Deposit = Deposit(user: UserId, fiatAmount: nat, txid: TxId, description: string)

  datatype SignedTransfer = SignedTransfer(request: TransferRequest, signatures: map<nat, Signature>)

  /** A withdrawal of ours that reached its threshold and waits to be submitted. */
  datatype PendingRow = PendingRow(requestId: EventId, transfer: SignedTransfer, federationId: FederationId)

  datatype ChronoEntry = ChronoEntry(eventId: EventId, time: nat)

  datatype Tables = Tables(
    status: Option<GroupStatus>,
    invitations: map<EventId, GroupInvitation>,
    withdrawals: map<EventId, Withdrawal>,
    deposits: map<EventId, Deposit>,
    chrono: map<nat, ChronoEntry>,
    invalid: set<EventId>,
    pending: set<PendingRow>)

  const EMPTY := Tables(None, map[], map[], map[], map[], {}, {})

  // ---------------------------------------------------------------- events

  datatype GroupVote = Accept(memberKey: PubKey) | Decline

  datatype WithdrawalResponse =
    | Approve(signature: Signature)
    | Reject
    | Complete(txid: TxId)
    | TxRejected(error: string)

  datatype Event =
    | InviteGroup(invitation: Invitation, proposerKey: PubKey)
    | Reannounce(invitationId: EventId, invitation: Invitation, proposer: UserId,
                 pubkeys: map<UserId, PubKey>, rejections: set<UserId>)
    | VoteOnInvitation(target: EventId, vote: GroupVote)
    | CancelInvitation(target: EventId)
    | RequestWithdrawal(request: TransferRequest, description: string)
    | RespondToWithdrawal(target: EventId, response: WithdrawalResponse)
    | NotifyDeposit(fiatAmount: nat, txid: TxId, description: string)

  datatype LogEvent = LogEvent(id: EventId, sender: UserId, event: Event, time: nat)

  /**
   * Deterministic calls into code outside this model: which federation an invite code names, if it
   * parses at all, and whether a signature of a request verifies under a key.
   */
  datatype Env = Env(
    federationOf: string -> Option<FederationId>,
    verifies: (TransferRequest, PubKey, Signature) -> bool)

  // ---------------------------------------------------------------- group votes

  function NewInvitation(invitation: Invitation, proposer: UserId, key: PubKey, federation: FederationId)
    : GroupInvitation
  {
    GroupInvitation(invitation, proposer, map[proposer := key], {}, federation)
  }

  function WithVote(g: GroupInvitation, sender: UserId, vote: GroupVote): Option<GroupInvitation> {
    if sender !in g.invitation.signers || sender in g.pubkeys || sender in g.rejections then None
    else match vote
      case Accept(key) => Some(g.(pubkeys := g.pubkeys[sender := key]))
      case Decline => Some(g.(rejections := g.rejections + {sender}))
  }

  function ToFinalized(g: GroupInvitation): Option<FinalizedGroup> {
    var account := AccountUnchecked(g.pubkeys.Values, g.invitation.threshold);
    if |g.pubkeys| == |g.invitation.signers| && ValidAccount(account) then
      Some(FinalizedGroup(g.invitation, g.proposer, g.pubkeys, account, g.federationId))
    else None
  }

  // ---------------------------------------------------------------- withdrawal votes

  datatype ResponseOutcome =
    | NeedsMoreApproval
    | Approved
    | ExtraApproval
    | Rejection
    | Completed
    | SubmissionRefused

  predicate CanVote(w: Withdrawal, sender: UserId, group: FinalizedGroup) {
    sender in group.invitation.signers && sender !in w.signatures && sender !in w.rejections
  }

  function WithResponse(w: Withdrawal, sender: UserId, response: WithdrawalResponse, group: FinalizedGroup)
    : Option<(Withdrawal, ResponseOutcome)>
  {
    match response
    case Approve(signature) =>
      if !CanVote(w, sender, group) then None else
        var signatures := w.signatures[sender := signature];
        var outcome :=
          if |signatures| < group.invitation.threshold then NeedsMoreApproval
          else if |signatures| == group.invitation.threshold then Approved
          else ExtraApproval;
        Some((w.(signatures := signatures), outcome))
    case Reject =>
      if !CanVote(w, sender, group) then None else
        Some((w.(rejections := w.rejections + {sender}), Rejection))
    case Complete(txid) =>
      if w.sender != sender || w.submission != Unknown then None else
        Some((w.(submission := Accepted(txid)), Completed))
    case TxRejected(error) =>
      if w.sender != sender || w.submission != Unknown then None else
        Some((w.(submission := TxRefused(error)), SubmissionRefused))
  }

  /** Index of a member's key in the account; `None` is either failed `expect` of the handler. */
  function KeyIndex(group: FinalizedGroup, user: UserId): Option<nat> {
    if user !in group.pubkeys then None
    else PositionOf(Ascending(group.account.pubKeys), group.pubkeys[user])
  }

  predicate AllIndexed(group: FinalizedGroup, users: set<UserId>) {
    forall u :: u in users ==> KeyIndex(group, u).Some?
  }

  /** Each user's key index with that user's signature, in the order of `users`. */
  function SignaturePairs(group: FinalizedGroup, signatures: map<UserId, Signature>, users: seq<UserId>)
    : (pairs: seq<(nat, Signature)>)
    requires forall u :: u in users ==> u in signatures && KeyIndex(group, u).Some?
    ensures |pairs| == |users|
    ensures forall i :: 0 <= i < |users| ==> pairs[i] == (KeyIndex(group, users[i]).value, signatures[users[i]])
  {
    seq(|users|, i requires 0 <= i < |users| && users[i] in signatures && KeyIndex(group, users[i]).Some? =>
      (KeyIndex(group, users[i]).value, signatures[users[i]]))
  }

  function SignatureMap(group: FinalizedGroup, signatures: map<UserId, Signature>): Option<map<nat, Signature>> {
    if AllIndexed(group, signatures.Keys) then
      Some(FromPairs(SignaturePairs(group, signatures, Ascending(signatures.Keys))))
    else None
  }

  /** The signature verifies under the key at this place in the account that the request draws on. */
  predicate VerifiesAt(env: Env, request: TransferRequest, index: nat, signature: Signature) {
    && index < |request.from.pubKeys|
    && env.verifies(request, Ascending(request.from.pubKeys)[index], signature)
  }

  /** `SignedTransferRequest::new`: at least threshold signatures, and all of them verify. */
  function SignTransfer(env: Env, request: TransferRequest, signatures: map<nat, Signature>): Option<SignedTransfer> {
    if |signatures| < request.from.threshold then None
    else if forall i :: i in signatures ==> VerifiesAt(env, request, i, signatures[i]) then
      Some(SignedTransfer(request, signatures))
    else None
  }

  /** The row of an approved withdrawal; `None` where an `expect` or the final `unwrap` fails. */
  function RowFor(env: Env, requestId: EventId, w: Withdrawal, group: FinalizedGroup): Option<PendingRow> {
    match SignatureMap(group, w.signatures)
    case None => None
    case Some(indexed) =>
      match SignTransfer(env, w.request, indexed)
      case None => None
      case Some(transfer) => Some(PendingRow(requestId, transfer, group.federationId))
  }

  // ---------------------------------------------------------------- chronological index

  /** The next counter: one above the largest stored one. */
  function ChronoCount(chrono: map<nat, ChronoEntry>): nat {
    if chrono.Keys == {} then 0 else Maximum(chrono.Keys) + 1
  }

  function WithChrono(t: Tables, id: EventId, time: nat): Tables {
    t.(chrono := t.chrono[ChronoCount(t.chrono) := ChronoEntry(id, time)])
  }

  // ---------------------------------------------------------------- one event

  /** `refresh` and `wake` are the context flags the event raises. */
  datatype Outcome =
    | Done(tables: Tables, wake: bool, refresh: bool)
    | Invalid(refresh: bool)
    | Fault   // a failed `expect` or `unwrap`, or a "new" entry whose key is already stored

  function FinalizedGroupOf(t: Tables): Option<FinalizedGroup> {
    match t.status
    case Some(Finalized(_, group)) => Some(group)
    case _ => None
  }

  predicate IsActive(t: Tables, id: EventId) {
    t.status == Some(ActiveInvitation(id))
  }

  function HandleInvite(env: Env, t: Tables, e: LogEvent): Outcome
    requires e.event.InviteGroup?
  {
    if FinalizedGroupOf(t).Some? then Invalid(false) else
    match env.federationOf(e.event.invitation.inviteCode)
    case None => Invalid(false)
    case Some(federation) =>
      if e.id in t.invitations then Fault else
        var record := NewInvitation(e.event.invitation, e.sender, e.event.proposerKey, federation);
        Done(t.(invitations := t.invitations[e.id := record], status := Some(ActiveInvitation(e.id))), false, false)
  }

  function HandleReannounce(env: Env, t: Tables, e: LogEvent): Outcome
    requires e.event.Reannounce?
  {
    var id := e.event.invitationId;
    if t.status.Some? || id in t.invitations then Done(t, false, false) else
    match env.federationOf(e.event.invitation.inviteCode)
    case None => Invalid(false)
    case Some(federation) =>
      var record := GroupInvitation(
                      e.event.invitation, e.event.proposer, e.event.pubkeys, e.event.rejections, federation);
      var status := match ToFinalized(record)
        case Some(group) => Finalized(id, group)
        case None => ActiveInvitation(id);
      Done(t.(invitations := t.invitations[id := record], status := Some(status)), false, false)
  }

  function HandleVote(env: Env, t: Tables, e: LogEvent): Outcome
    requires e.event.VoteOnInvitation?
  {
    var id := e.event.target;
    if !IsActive(t, id) || id !in t.invitations then Invalid(false) else
    match WithVote(t.invitations[id], e.sender, e.event.vote)
    case None => Invalid(false)
    case Some(record) =>
      var status := match ToFinalized(record)
        case Some(group) => Some(Finalized(id, group))
        case None => t.status;
      Done(t.(invitations := t.invitations[id := record], status := status), false, false)
  }

  function HandleCancel(t: Tables, e: LogEvent): Outcome
    requires e.event.CancelInvitation?
  {
    if IsActive(t, e.event.target) then Done(t.(status := None), false, false) else Invalid(false)
  }

  function HandleRequest(t: Tables, e: LogEvent): Outcome
    requires e.event.RequestWithdrawal?
  {
    if FinalizedGroupOf(t).None? then Invalid(false)
    else if e.id in t.withdrawals then Fault
    else
      var w := Withdrawal(e.event.request, e.event.description, map[], {}, Unknown, e.sender);
      Done(WithChrono(t.(withdrawals := t.withdrawals[e.id := w]), e.id, e.time), false, false)
  }

  function HandleResponse(env: Env, me: UserId, t: Tables, e: LogEvent): Outcome
    requires e.event.RespondToWithdrawal?
  {
    var r := e.event.target;
    match FinalizedGroupOf(t)
    case None => Invalid(false)
    case Some(group) =>
      if r !in t.withdrawals then Invalid(false) else
      match WithResponse(t.withdrawals[r], e.sender, e.event.response, group)
      case None => Invalid(false)
      case Some((w, outcome)) =>
        var stored := t.(withdrawals := t.withdrawals[r := w]);
        if outcome == Approved && me == w.sender then
          match RowFor(env, r, w, group)
          case None => Fault
          case Some(row) => Done(stored.(pending := stored.pending + {row}), true, false)
        else Done(stored, false, outcome == Completed)
  }

  function HandleDeposit(t: Tables, e: LogEvent): Outcome
    requires e.event.NotifyDeposit?
  {
    if FinalizedGroupOf(t).None? then Invalid(true)
    else if e.id in t.deposits then Fault
    else
      var d := Deposit(e.sender, e.event.fiatAmount, e.event.txid, e.event.description);
      Done(WithChrono(t.(deposits := t.deposits[e.id := d]), e.id, e.time), false, true)
  }

  function Handle(env: Env, me: UserId, t: Tables, e: LogEvent): Outcome {
    match e.event
    case InviteGroup(_, _) => HandleInvite(env, t, e)
    case Reannounce(_, _, _, _, _) => HandleReannounce(env, t, e)
    case VoteOnInvitation(_, _) => HandleVote(env, t, e)
    case CancelInvitation(_) => HandleCancel(t, e)
    case RequestWithdrawal(_, _) => HandleRequest(t, e)
    case RespondToWithdrawal(_, _) => HandleResponse(env, me, t, e)
    case NotifyDeposit(_, _, _) => HandleDeposit(t, e)
  }

  /** What a device stores after the event; `None` when the handler would panic. */
  function Step(env: Env, me: UserId, t: Tables, e: LogEvent): Option<Tables> {
    match Handle(env, me, t, e)
    case Done(t', _, _) => Some(t')
    case Invalid(_) => if e.id in t.invalid then None else Some(t.(invalid := t.invalid + {e.id}))
    case Fault => None
  }

  /** The fold of a whole log, in log order. */
  function Run(env: Env, me: UserId, t: Tables, log: seq<LogEvent>): Option<Tables> {
    if log == [] then Some(t) else
    match Run(env, me, t, log[..|log| - 1])
    case None => None
    case Some(t') => Step(env, me, t', log[|log| - 1])
  }

  lemma {:induction false} RunConcat(env: Env, me: UserId, t: Tables, a: seq<LogEvent>, b: seq<LogEvent>)
    ensures Run(env, me, t, a + b)
         == match Run(env, me, t, a) case None => None case Some(t') => Run(env, me, t', b)
  {
    hide Step;
    if b == [] {
      assert a + b == a;
    } else {
      var front := b[..|b| - 1];
      RunConcat(env, me, t, a, front);
      assert (a + b)[..|a + b| - 1] == a + front;
    }
  }

  // ---------------------------------------------------------------- reading an event's data

  datatype EventData =
    | WithdrawalData(withdrawal: Withdrawal)
    | InvitationData(invitation: GroupInvitation)
    | DepositData(deposit: Deposit)
    | InvalidData

  function DataOf(t: Tables, id: EventId): Option<EventData> {
    if id in t.invitations then Some(InvitationData(t.invitations[id]))
    else if id in t.deposits then Some(DepositData(t.deposits[id]))
    else if id in t.withdrawals then Some(WithdrawalData(t.withdrawals[id]))
    else if id in t.invalid then Some(InvalidData)
    else None
  }

  /** The event that a member sends to describe the group to newcomers; nothing when there is none. */
  function Reannouncement(t: Tables): Option<Event> {
    match t.status
    case Some(Finalized(id, g)) => Some(Reannounce(id, g.invitation, g.proposer, g.pubkeys, {}))
    case Some(ActiveInvitation(id)) =>
      if id !in t.invitations then None else
        var s := t.invitations[id];
        Some(Reannounce(id, s.invitation, s.proposer, s.pubkeys, s.rejections))
    case None => None
  }
}
