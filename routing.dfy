/**
 * Where an interaction ends up (src/index.ts, emitInteraction, onCommand and onComponent),
 * as a value: which registered handler or UI state would run, which denial would be sent,
 * or which minimal acknowledgement answers an unhandled interaction.
 */
module Routing {
  import opened Wrappers
  import opened CustomId
  import opened Permissions
  import opened CommandOptions

  /** Identity of an application function registered with the router. */
  datatype CommandHandler = CommandHandler(ref: nat)
  datatype ComponentHandler = ComponentHandler(ref: nat)
  datatype UiState = UiState(ref: nat)

  /** The part of a live reply context the router reads: its exact-id handler map. */
  datatype ReplyContext = ReplyContext(id: string, handlers: map<string, ComponentHandler>)

  /** `i.type` with the `i.data` that goes with it. */
  datatype InteractionData =
    | CommandData(name: string, options: Option<seq<CommandOption>>, option: map<string, OptionValue>)
    | ComponentData(customId: string, flags: seq<char>)
    | UnknownData(typeCode: int)

  datatype Route =
    | RunCommandHandler(command: CommandHandler)
    | RenderCommandState(commandState: string)
    | DeferChannelMessage(unhandledCommand: string)
    | Deny(reason: DenialReason)
    | RunContextHandler(contextHandler: ComponentHandler)
    | RunComponentHandler(component: ComponentHandler)
    | RenderComponentState(componentState: string)
    | DeferUpdateMessage(unhandledComponent: string)
    | IgnoreUnknownType(typeCode: int)
    | ActorMissing
  {
    /** Application code (a handler or a UI state) runs on this route. */
    predicate ReachesApplication()
    {
      RunCommandHandler? || RenderCommandState? || RunContextHandler? || RunComponentHandler? || RenderComponentState?
    }
  }

  /** What the router logs through `logger.warn`. */
  datatype Warning =
    | CommandHandlerAssignedTwice(command: string)
    | ComponentHandlerAssignedTwice(componentId: string)
    | UiStateExists(stateId: string)
    | UnhandledCommand(commandName: string)
    | UnhandledComponent(customId: string)
    | UnknownInteractionType(code: int)

  /** The warning a route is logged with, if any (src/index.ts:186, 205, 267). */
  function RouteWarnings(r: Route): (ws: seq<Warning>)
    ensures |ws| <= 1
    ensures ws != [] <==> r.DeferChannelMessage? || r.DeferUpdateMessage? || r.IgnoreUnknownType?
  {
    match r
    case DeferChannelMessage(name) => [UnhandledCommand(name)]
    case DeferUpdateMessage(id) => [UnhandledComponent(id)]
    case IgnoreUnknownType(code) => [UnknownInteractionType(code)]
    case _ => []
  }

  /** src/index.ts:173-174: without a top-level user the member's user acts. */
  function ActorOf(user: Option<User>, member: Option<Member>): (actor: Option<User>)
    ensures user.Some? ==> actor == user
    ensures user.None? && member.Some? ==> actor == Some(member.value.user)
    ensures actor.None? <==> user.None? && member.None?
  {
    if user.Some? then user else if member.Some? then Some(member.value.user) else None
  }

  /** The live reply context of the message, found by the id of its originating interaction. */
  function FindContext(contexts: map<string, ReplyContext>, origin: Option<MessageInteraction>): (context: Option<ReplyContext>)
    ensures origin.None? ==> context.None?
    ensures context.Some? <==> origin.Some? && origin.value.id in contexts
    ensures context.Some? ==> context.value == contexts[origin.value.id]
  {
    if origin.Some? && origin.value.id in contexts then Some(contexts[origin.value.id]) else None
  }

  /** The context has a handler registered under exactly `id`. */
  predicate InContext(context: Option<ReplyContext>, id: string)
  {
    context.Some? && id in context.value.handlers
  }

  /**
   * src/index.ts:200-207: the command's handler, else the UI state `<name>_main`, else a
   * deferred channel message.
   */
  function RouteCommand(name: string, commands: map<string, CommandHandler>, states: map<string, UiState>): (r: Route)
    ensures r.RunCommandHandler? <==> name in commands
    ensures r.RunCommandHandler? ==> r.command == commands[name]
    ensures r.RenderCommandState? <==> name !in commands && name + "_main" in states
    ensures r.RenderCommandState? ==> r.commandState == name + "_main"
    ensures r == DeferChannelMessage(name) <==> name !in commands && name + "_main" !in states
  {
    if name in commands then RunCommandHandler(commands[name])
    else if name + "_main" in states then RenderCommandState(name + "_main")
    else DeferChannelMessage(name)
  }

  /**
   * src/index.ts:252 and 260-269: a denied component stops at the denial; an allowed one goes
   * to the reply context's handler for its id, else the global handler, else the UI state of
   * the same name, else a deferred update.
   */
  function RouteComponent(check: PermissionResult, id: string, context: Option<ReplyContext>,
                          components: map<string, ComponentHandler>, states: map<string, UiState>): (r: Route)
    ensures check.Denied? ==> r == Deny(check.reason)
    ensures r.RunContextHandler? <==> check.Passed? && InContext(context, id)
    ensures r.RunContextHandler? ==> r.contextHandler == context.value.handlers[id]
    ensures r.RunComponentHandler? <==> check.Passed? && !InContext(context, id) && id in components
    ensures r.RunComponentHandler? ==> r.component == components[id]
    ensures r.RenderComponentState? <==> check.Passed? && !InContext(context, id) && id !in components && id in states
    ensures r.RenderComponentState? ==> r.componentState == id
    ensures r == DeferUpdateMessage(id) <==>
            check.Passed? && !InContext(context, id) && id !in components && id !in states
  {
    if check.Denied? then Deny(check.reason)
    else if InContext(context, id) then RunContextHandler(context.value.handlers[id])
    else if id in components then RunComponentHandler(components[id])
    else if id in states then RenderComponentState(id)
    else DeferUpdateMessage(id)
  }

  /**
   * src/index.ts:173-186 with onCommand and onComponent: normalise the actor, then branch on the
   * interaction type; a component is decoded and checked before anything is looked up.
   */
  function Dispatch(user: Option<User>, member: Option<Member>, data: InteractionData, origin: Option<MessageInteraction>,
                    botAdmins: BotAdmins, chars: FlagChars, perms: PermissionStrings,
                    commands: map<string, CommandHandler>, components: map<string, ComponentHandler>,
                    states: map<string, UiState>, contexts: map<string, ReplyContext>): (r: Route)
    ensures r.ActorMissing? <==> user.None? && member.None?
    ensures ActorOf(user, member).Some? && data.CommandData? ==> r == RouteCommand(data.name, commands, states)
    ensures ActorOf(user, member).Some? && data.ComponentData? ==>
            var decoded := DecodeCustomId(data.customId);
            r == RouteComponent(ComponentPermissionCheck(botAdmins, chars, perms, ActorOf(user, member).value,
                                                         decoded.flags, origin, member),
                                decoded.id, FindContext(contexts, origin), components, states)
    ensures r.IgnoreUnknownType? ==> data.UnknownData? && r.typeCode == data.typeCode
    ensures (r.RunCommandHandler? || r.RenderCommandState? || r.DeferChannelMessage?) ==> data.CommandData?
    ensures (r.Deny? || r.RunContextHandler? || r.RunComponentHandler? || r.RenderComponentState? || r.DeferUpdateMessage?)
            ==> data.ComponentData?
    ensures data.ComponentData? && r.ReachesApplication() ==>
            ComponentPermissionCheck(botAdmins, chars, perms, ActorOf(user, member).value,
                                     DecodeCustomId(data.customId).flags, origin, member) == Passed
    ensures r.Deny? ==>
            ComponentPermissionCheck(botAdmins, chars, perms, ActorOf(user, member).value,
                                     DecodeCustomId(data.customId).flags, origin, member) == Denied(r.reason)
    ensures r.RunComponentHandler? ==>
            var id := DecodeCustomId(data.customId).id;
            id in components && r.component == components[id]
    ensures r.RunCommandHandler? ==> data.name in commands && r.command == commands[data.name]
  {
    var actor := ActorOf(user, member);
    if actor.None? then ActorMissing
    else
      match data
      case CommandData(name, _, _) => RouteCommand(name, commands, states)
      case ComponentData(customId, _) =>
        var decoded := DecodeCustomId(customId);
        var check := ComponentPermissionCheck(botAdmins, chars, perms, actor.value, decoded.flags, origin, member);
        RouteComponent(check, decoded.id, FindContext(contexts, origin), components, states)
      case UnknownData(code) => IgnoreUnknownType(code)
  }

  /** Registering a command handler makes the command route to it, whatever UI states exist. */
  lemma RegisteredCommandRoutesToIt(name: string, h: CommandHandler,
                                    commands: map<string, CommandHandler>, states: map<string, UiState>)
    ensures RouteCommand(name, commands[name := h], states) == RunCommandHandler(h)
  {
  }

  /** Registering under one name leaves the routes of all other commands as they were. */
  lemma RegistrationLeavesOtherCommands(name: string, other: string, h: CommandHandler,
                                        commands: map<string, CommandHandler>, states: map<string, UiState>)
    requires other != name
    ensures RouteCommand(other, commands[name := h], states) == RouteCommand(other, commands, states)
  {
  }

  /** A UI state `<name>_main` answers a command that has no handler of its own. */
  lemma MainStateAnswersUnhandledCommand(name: string, s: UiState,
                                         commands: map<string, CommandHandler>, states: map<string, UiState>)
    requires name !in commands
    ensures RouteCommand(name, commands, states[name + "_main" := s]) == RenderCommandState(name + "_main")
  {
  }

  /** A globally registered component handler is reached unless the reply context claims the id. */
  lemma RegisteredComponentRoutesToIt(id: string, h: ComponentHandler, context: Option<ReplyContext>,
                                      components: map<string, ComponentHandler>, states: map<string, UiState>)
    requires !InContext(context, id)
    ensures RouteComponent(Passed, id, context, components[id := h], states) == RunComponentHandler(h)
  {
  }

  /**
   * A custom id `confirm-<admin><manage messages>` pressed by its invoker, who is neither a bot
   * owner nor a guild administrator, is refused for the administrator flag: the guild checks run
   * in their fixed order and the first missing permission is the reason.
   */
  lemma AdminCheckedBeforeManageMessages(botAdmins: BotAdmins, chars: FlagChars, perms: PermissionStrings,
                                         user: User, member: Member, origin: Option<MessageInteraction>)
    requires chars.Valid()
    requires !IsBotOwner(botAdmins, user.id)
    requires InvokedBy(origin, user)
    requires !perms.containsAdmin(member.permissions)
    ensures DecodeCustomId("confirm-" + [chars.admin, chars.manageMessages]).id == "confirm"
    ensures ComponentPermissionCheck(botAdmins, chars, perms, user,
                                     DecodeCustomId("confirm-" + [chars.admin, chars.manageMessages]).flags,
                                     origin, Some(member)) == Denied(GuildAdmin)
  {
    var flags := [chars.admin, chars.manageMessages];
    assert "confirm-" + flags == "confirm" + "-" + flags;
    var cs := [chars.everyone, chars.botAdmin, chars.admin, chars.manageServer, chars.manageMessages];
    assert cs[1] != cs[2] && cs[1] != cs[4];
    assert '-' !in flags by { assert cs[2] in cs && cs[4] in cs; }
    DecodeJoined("confirm", flags);
    assert chars.botAdmin !in flags && chars.admin in flags;
  }

  /** The same pressed by a guild member who did not invoke the command is refused as not theirs. */
  lemma OthersCannotUseOwnerOnlyComponent(botAdmins: BotAdmins, chars: FlagChars, perms: PermissionStrings,
                                          user: User, member: Option<Member>, origin: Option<MessageInteraction>,
                                          id: string, flags: seq<char>)
    requires chars.Valid() && '-' !in id && '-' !in flags
    requires chars.everyone !in flags && chars.botAdmin !in flags
    requires !IsBotOwner(botAdmins, user.id) && !InvokedBy(origin, user)
    ensures ComponentPermissionCheck(botAdmins, chars, perms, user, DecodeCustomId(id + "-" + flags).flags,
                                     origin, member) == Denied(NotOwned)
  {
    DecodeJoined(id, flags);
  }
}
