/**
 * The permission gate of the bot, `check_bot_permissions` in main.py: an
 * ordered chain of rules over the chat's type and the bot's membership in the
 * chat.  The membership lookup (`chat.get_member`) is a call into Telegram; it
 * enters the model as its outcome.
 */
module Permissions {
  import opened Wrappers

  /** The kinds of Telegram chat. */
  datatype ChatType = Private | Group | Supergroup | Channel

  /** The statuses Telegram reports for a chat member. */
  datatype Status = OwnerStatus | AdministratorStatus | MemberStatus | RestrictedStatus | LeftStatus | BannedStatus

  /**
   * The bot's membership record.  An administrator record may or may not carry
   * each of the three sending rights the gate reads (`None` when the attribute
   * is missing or unset).
   */
  datatype Member =
    | Owner
    | Administrator(canSendMessages: Option<bool>, canSendMediaMessages: Option<bool>, canSendOtherMessages: Option<bool>)
    | PlainMember
    | Restricted
    | Left
    | Banned

  function StatusOf(m: Member): Status {
    match m
    case Owner => OwnerStatus
    case Administrator(_, _, _) => AdministratorStatus
    case PlainMember => MemberStatus
    case Restricted => RestrictedStatus
    case Left => LeftStatus
    case Banned => BannedStatus
  }

  /** What `chat.get_member` does: return the record, raise `BadRequest`, or raise anything else. */
  datatype Lookup = Found(member: Member) | BadRequest | OtherError

  /** The rights the gate requires of an administrator. */
  datatype Right = CanSendMessages | CanSendMediaMessages | CanSendOtherMessages

  /** The gate's table of rights, in its order, each marked as required. */
  const RequiredRights: seq<(Right, bool)> :=
    [(CanSendMessages, true), (CanSendMediaMessages, true), (CanSendOtherMessages, true)]

  /** `getattr(member, right, False)`: the attribute when the record carries it, else nothing. */
  function Attribute(m: Member, r: Right): Option<bool> {
    match m
    case Administrator(messages, media, other) =>
      (match r
       case CanSendMessages => messages
       case CanSendMediaMessages => media
       case CanSendOtherMessages => other)
    case _ => None
  }

  /** Python's truth value of an attribute that may be missing or `None`. */
  predicate Truthy(v: Option<bool>) {
    v == Some(true)
  }

  /**
   * The loop over the rights table: the first right that is required and not
   * held makes it return false; past the end it returns true.
   */
  function RightsHeld(m: Member, rights: seq<(Right, bool)>): bool {
    if |rights| == 0 then true
    else if !Truthy(Attribute(m, rights[0].0)) && rights[0].1 then false
    else RightsHeld(m, rights[1..])
  }

  /** How `check_bot_permissions` ends: it returns `True`, `False` or `None`, or an exception escapes. */
  datatype Check = Returns(value: Option<bool>) | Raises

  /** The outcome of the gate, and whether it asked Telegram for the bot's membership. */
  datatype Decision = Decision(lookedUp: bool, check: Check)

  /**
   * `check_bot_permissions` for a chat of the given type (`None` when the update
   * has no chat), where `lookup` is what the membership lookup would do.
   */
  function CheckBotPermissions(chat: Option<ChatType>, lookup: Lookup): Decision {
    match chat
    case None => Decision(false, Returns(Some(false)))
    case Some(kind) =>
      if kind == Private then Decision(false, Returns(Some(true)))
      else
        match lookup
        case BadRequest => Decision(true, Returns(Some(false)))
        case OtherError => Decision(true, Raises)
        case Found(m) =>
          if kind == Supergroup && StatusOf(m) == AdministratorStatus then Decision(true, Returns(Some(true)))
          else if m.Administrator? then Decision(true, Returns(Some(RightsHeld(m, RequiredRights))))
          else if StatusOf(m) == MemberStatus then Decision(true, Returns(Some(true)))
          else Decision(true, Returns(None))
  }

  /** The caller's reading of the gate: only a returned `True` lets the message through. */
  predicate Granted(d: Decision) {
    d.check == Returns(Some(true))
  }

  // ---------------------------------------------------------------------
  // The rules
  // ---------------------------------------------------------------------

  /** The rights loop returns true exactly when every required right is held. */
  lemma {:induction false} RightsHeldIff(m: Member, rights: seq<(Right, bool)>)
    ensures RightsHeld(m, rights) <==>
      forall i :: 0 <= i < |rights| && rights[i].1 ==> Truthy(Attribute(m, rights[i].0))
  {
    if |rights| > 0 {
      RightsHeldIff(m, rights[1..]);
      assert forall i :: 1 <= i < |rights| ==> rights[i] == rights[1..][i - 1];
    }
  }

  /** An administrator passes the rights table exactly when all three sending rights are present and true. */
  lemma AdministratorRights(m: Member)
    ensures RightsHeld(m, RequiredRights) <==>
      Attribute(m, CanSendMessages) == Some(true) &&
      Attribute(m, CanSendMediaMessages) == Some(true) &&
      Attribute(m, CanSendOtherMessages) == Some(true)
  {
    RightsHeldIff(m, RequiredRights);
    assert RequiredRights[0].0 == CanSendMessages;
    assert RequiredRights[1].0 == CanSendMediaMessages;
    assert RequiredRights[2].0 == CanSendOtherMessages;
  }

  /** Without a chat the gate denies, and asks nothing. */
  lemma NoChatDenied(lookup: Lookup)
    ensures CheckBotPermissions(None, lookup) == Decision(false, Returns(Some(false)))
  {
  }

  /** A private chat is always allowed, without a membership lookup. */
  lemma PrivateGranted(lookup: Lookup)
    ensures CheckBotPermissions(Some(Private), lookup) == Decision(false, Returns(Some(true)))
  {
  }

  /** In every other chat the gate asks for the bot's membership. */
  lemma OtherChatsLookUp(kind: ChatType, lookup: Lookup)
    requires kind != Private
    ensures CheckBotPermissions(Some(kind), lookup).lookedUp
  {
  }

  /** A `BadRequest` from the lookup denies; any other exception escapes the gate. */
  lemma LookupFailures(kind: ChatType)
    requires kind != Private
    ensures CheckBotPermissions(Some(kind), BadRequest).check == Returns(Some(false))
    ensures CheckBotPermissions(Some(kind), OtherError).check == Raises
  {
  }

  /** An administrator of a supergroup is allowed whatever its rights. */
  lemma SupergroupAdministratorGranted(m: Member)
    requires m.Administrator?
    ensures Granted(CheckBotPermissions(Some(Supergroup), Found(m)))
  {
  }

  /**
   * Outside supergroups an administrator is allowed exactly when it holds all
   * three sending rights, a missing right counting as not held.
   */
  lemma AdministratorGranted(kind: ChatType, m: Member)
    requires kind != Private && kind != Supergroup && m.Administrator?
    ensures Granted(CheckBotPermissions(Some(kind), Found(m))) <==>
      m.canSendMessages == Some(true) && m.canSendMediaMessages == Some(true) && m.canSendOtherMessages == Some(true)
    ensures CheckBotPermissions(Some(kind), Found(m)).check.Returns?
    ensures CheckBotPermissions(Some(kind), Found(m)).check.value.Some?
  {
    AdministratorRights(m);
  }

  /** A plain member is allowed outside private chats too. */
  lemma PlainMemberGranted(kind: ChatType)
    ensures Granted(CheckBotPermissions(Some(kind), Found(PlainMember)))
  {
  }

  /**
   * Any other status falls off the end of the rule chain: the gate returns
   * `None`, which the caller reads as a denial.
   */
  lemma OtherStatusFallsThrough(kind: ChatType, m: Member)
    requires kind != Private && (m.Owner? || m.Restricted? || m.Left? || m.Banned?)
    ensures CheckBotPermissions(Some(kind), Found(m)) == Decision(true, Returns(None))
    ensures !Granted(CheckBotPermissions(Some(kind), Found(m)))
  {
  }

  /** The whole gate in one statement: exactly these cases let a message through. */
  lemma GrantedIff(chat: Option<ChatType>, lookup: Lookup)
    ensures Granted(CheckBotPermissions(chat, lookup)) <==>
      || chat == Some(Private)
      || (chat.Some? && lookup.Found? &&
          ( || (chat.value == Supergroup && lookup.member.Administrator?)
            || (lookup.member.Administrator? && lookup.member.canSendMessages == Some(true) &&
                lookup.member.canSendMediaMessages == Some(true) && lookup.member.canSendOtherMessages == Some(true))
            || lookup.member == PlainMember))
  {
    if chat.Some? && lookup.Found? && lookup.member.Administrator? {
      AdministratorRights(lookup.member);
    }
  }
}
