/**
 * The authorization decision a component interaction passes before any handler runs
 * (src/index.ts, componentPermissionCheck and isBotOwner). Denial replies are not sent here:
 * the decision is returned as a value.
 */
module Permissions {
  import opened Wrappers

  datatype User = User(id: string)

  /** A guild member: the embedded user and the member's permission value. */
  datatype Member = Member(user: User, permissions: string)

  /** `i.message.interaction`: the command interaction that produced the message a component sits on. */
  datatype MessageInteraction = MessageInteraction(id: string, name: string, user: User)

  /**
   * The characters of the access flags (InteractionComponentFlag). Their values live in a
   * module that is not part of this model; what the router relies on is that they are
   * five different characters and that none of them is the `-` separator.
   */
  datatype FlagChars = FlagChars(everyone: char, botAdmin: char, admin: char, manageServer: char, manageMessages: char)
  {
    predicate Valid()
    {
      var cs := [everyone, botAdmin, admin, manageServer, manageMessages];
      '-' !in cs && forall j, k | 0 <= j < k < |cs| :: cs[j] != cs[k]
    }
  }

  /** The three permission tests the router asks of a member's permission value (PermissionStrings). */
  datatype PermissionStrings = PermissionStrings(
    containsAdmin: string -> bool,
    containsManageServer: string -> bool,
    containsManageMessages: string -> bool)

  /** `config.botAdmins`: absent, a list of user ids, or a predicate on a user id. */
  datatype BotAdmins = Unset | AdminList(ids: seq<string>) | AdminPredicate(test: string -> bool)

  datatype DenialReason = BotAdmin | NotOwned | GuildAdmin | ManageServer | ManageMessages

  datatype PermissionResult = Passed | Denied(reason: DenialReason)

  /** src/index.ts:289-296. With `botAdmins` unset nobody is a bot owner. */
  function IsBotOwner(botAdmins: BotAdmins, userId: string): (owner: bool)
    ensures owner ==> !botAdmins.Unset?
    ensures botAdmins.AdminList? ==> (owner <==> userId in botAdmins.ids)
    ensures botAdmins.AdminPredicate? ==> (owner <==> botAdmins.test(userId))
  {
    match botAdmins
    case Unset => false
    case AdminList(ids) => userId in ids
    case AdminPredicate(test) => test(userId)
  }

  /** `i.message.interaction?.user.id === i.user.id`: false when there is no originating interaction. */
  predicate InvokedBy(origin: Option<MessageInteraction>, user: User)
    ensures origin.None? ==> !InvokedBy(origin, user)
    ensures InvokedBy(origin, user) <==> origin.Some? && origin.value.user.id == user.id
  {
    origin.Some? && origin.value.user.id == user.id
  }

  /** The flags neither reserve the component for bot owners nor for someone other than `user`. */
  predicate ClearsOwnership(chars: FlagChars, flags: seq<char>, origin: Option<MessageInteraction>, user: User)
  {
    chars.botAdmin !in flags && (chars.everyone in flags || InvokedBy(origin, user))
  }

  /** The guild-permission checks, in the order the router runs them. */
  const GuildChecks: seq<DenialReason> := [GuildAdmin, ManageServer, ManageMessages]

  /** The flag list asks for the guild permission `check`. */
  predicate Demands(chars: FlagChars, flags: seq<char>, check: DenialReason)
  {
    match check
    case GuildAdmin => chars.admin in flags
    case ManageServer => chars.manageServer in flags
    case ManageMessages => chars.manageMessages in flags
    case _ => false
  }

  /** The permission value grants the guild permission `check`. */
  predicate Holds(perms: PermissionStrings, permissions: string, check: DenialReason)
  {
    match check
    case GuildAdmin => perms.containsAdmin(permissions)
    case ManageServer => perms.containsManageServer(permissions)
    case ManageMessages => perms.containsManageMessages(permissions)
    case _ => true
  }

  /** Reference reading of the guild checks: the first of `checks` that is demanded but not held. */
  function FirstMissing(chars: FlagChars, flags: seq<char>, perms: PermissionStrings, permissions: string,
                        checks: seq<DenialReason>): PermissionResult
  {
    if checks == [] then Passed
    else if Demands(chars, flags, checks[0]) && !Holds(perms, permissions, checks[0]) then Denied(checks[0])
    else FirstMissing(chars, flags, perms, permissions, checks[1..])
  }

  /** The guild checks pass exactly when every demanded permission is held. */
  lemma {:induction false} FirstMissingPassesExactly(chars: FlagChars, flags: seq<char>, perms: PermissionStrings,
                                                     permissions: string, checks: seq<DenialReason>)
    ensures FirstMissing(chars, flags, perms, permissions, checks) == Passed <==>
            forall k | 0 <= k < |checks| :: Demands(chars, flags, checks[k]) ==> Holds(perms, permissions, checks[k])
  {
    if checks != [] {
      FirstMissingPassesExactly(chars, flags, perms, permissions, checks[1..]);
      assert forall k | 1 <= k < |checks| :: checks[k] == checks[1..][k - 1];
    }
  }

  /** A guild denial names a demanded, missing permission that every earlier check let through. */
  lemma {:induction false} FirstMissingIsFirst(chars: FlagChars, flags: seq<char>, perms: PermissionStrings,
                                               permissions: string, checks: seq<DenialReason>)
    requires FirstMissing(chars, flags, perms, permissions, checks).Denied?
    ensures exists k | 0 <= k < |checks| ::
      && checks[k] == FirstMissing(chars, flags, perms, permissions, checks).reason
      && Demands(chars, flags, checks[k]) && !Holds(perms, permissions, checks[k])
      && forall j | 0 <= j < k :: Demands(chars, flags, checks[j]) ==> Holds(perms, permissions, checks[j])
  {
    if !(Demands(chars, flags, checks[0]) && !Holds(perms, permissions, checks[0])) {
      var tail := checks[1..];
      FirstMissingIsFirst(chars, flags, perms, permissions, tail);
      var k :| 0 <= k < |tail| && tail[k] == FirstMissing(chars, flags, perms, permissions, tail).reason
        && Demands(chars, flags, tail[k]) && !Holds(perms, permissions, tail[k])
        && forall j | 0 <= j < k :: Demands(chars, flags, tail[j]) ==> Holds(perms, permissions, tail[j]);
      assert checks[k + 1] == tail[k];
      assert forall j | 1 <= j < k + 1 :: checks[j] == tail[j - 1];
    }
  }

  /**
   * src/index.ts:221-241, first match wins: a bot owner passes; otherwise the BOT_ADMIN flag
   * denies; without EVERYONE anyone but the original invoker is denied (also when the message
   * has no originating interaction); outside a guild the rest passes; inside one the first
   * demanded guild permission the member lacks is the reason.
   */
  function ComponentPermissionCheck(botAdmins: BotAdmins, chars: FlagChars, perms: PermissionStrings, user: User,
                                    flags: seq<char>, origin: Option<MessageInteraction>,
                                    member: Option<Member>): (r: PermissionResult)
    ensures IsBotOwner(botAdmins, user.id) ==> r == Passed
    ensures !IsBotOwner(botAdmins, user.id) && chars.botAdmin in flags ==> r == Denied(BotAdmin)
    ensures (!IsBotOwner(botAdmins, user.id) && chars.botAdmin !in flags && chars.everyone !in flags
             && !InvokedBy(origin, user)) ==> r == Denied(NotOwned)
    ensures !IsBotOwner(botAdmins, user.id) && ClearsOwnership(chars, flags, origin, user) ==>
            r == if member.None? then Passed else FirstMissing(chars, flags, perms, member.value.permissions, GuildChecks)
  {
    if IsBotOwner(botAdmins, user.id) then Passed
    else if chars.botAdmin in flags then Denied(BotAdmin)
    else if chars.everyone !in flags && !InvokedBy(origin, user) then Denied(NotOwned)
    else if member.None? then Passed
    else
      var p := member.value.permissions;
      assert GuildChecks[1..][1..] == [ManageMessages] && [ManageMessages][1..] == [];
      assert FirstMissing(chars, flags, perms, p, [ManageMessages]) ==
             if chars.manageMessages in flags && !perms.containsManageMessages(p) then Denied(ManageMessages) else Passed;
      if chars.admin in flags && !perms.containsAdmin(p) then Denied(GuildAdmin)
      else if chars.manageServer in flags && !perms.containsManageServer(p) then Denied(ManageServer)
      else if chars.manageMessages in flags && !perms.containsManageMessages(p) then Denied(ManageMessages)
      else Passed
  }

  /** The whole decision at once: when a component interaction is let through. */
  lemma PassedExactlyWhen(botAdmins: BotAdmins, chars: FlagChars, perms: PermissionStrings, user: User,
                          flags: seq<char>, origin: Option<MessageInteraction>, member: Option<Member>)
    ensures ComponentPermissionCheck(botAdmins, chars, perms, user, flags, origin, member) == Passed <==>
            || IsBotOwner(botAdmins, user.id)
            || (&& ClearsOwnership(chars, flags, origin, user)
                && (member.Some? ==>
                      forall k | 0 <= k < |GuildChecks| ::
                        Demands(chars, flags, GuildChecks[k]) ==> Holds(perms, member.value.permissions, GuildChecks[k])))
  {
    if member.Some? {
      FirstMissingPassesExactly(chars, flags, perms, member.value.permissions, GuildChecks);
    }
  }
}
