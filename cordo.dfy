/**
 * The router object (src/index.ts, class Cordo): three handler registries, the bot-owner
 * configuration and the warning log, plus the interaction object that dispatch enriches in place.
 */
module Router {
  import opened Wrappers
  import opened CustomId
  import opened Permissions
  import opened CommandOptions
  import opened Routing

  /** One inbound interaction; dispatch writes `answered`, `user` and `data` back into it. */
  class Interaction {
    var answered: bool
    var user: Option<User>
    var member: Option<Member>
    var data: InteractionData
    /** `message.interaction` of a component's message; absent for commands. */
    var origin: Option<MessageInteraction>

    constructor (user: Option<User>, member: Option<Member>, data: InteractionData, origin: Option<MessageInteraction>)
      ensures this.user == user && this.member == member && this.data == data && this.origin == origin
      ensures !answered
    {
      this.answered := false;
      this.user := user;
      this.member := member;
      this.data := data;
      this.origin := origin;
    }
  }

  class Cordo {
    var commandHandlers: map<string, CommandHandler>
    var componentHandlers: map<string, ComponentHandler>
    var uiStates: map<string, UiState>
    /** `config.botAdmins`. */
    var botAdmins: BotAdmins
    /** Every `logger.warn` so far, oldest first. */
    var warnings: seq<Warning>

    constructor (botAdmins: BotAdmins)
      ensures commandHandlers == map[] && componentHandlers == map[] && uiStates == map[]
      ensures this.botAdmins == botAdmins && warnings == []
    {
      commandHandlers := map[];
      componentHandlers := map[];
      uiStates := map[];
      this.botAdmins := botAdmins;
      warnings := [];
    }

    /** src/index.ts:75-79: last registration wins; overriding an entry logs a warning, never an error. */
    method RegisterCommandHandler(command: string, handler: CommandHandler)
      modifies this`commandHandlers, this`warnings
      ensures command in commandHandlers && commandHandlers[command] == handler
      ensures commandHandlers.Keys == old(commandHandlers.Keys) + {command}
      ensures forall k | k in old(commandHandlers) && k != command :: commandHandlers[k] == old(commandHandlers[k])
      ensures warnings == old(warnings) + if command in old(commandHandlers) then [CommandHandlerAssignedTwice(command)] else []
    {
      if command in commandHandlers {
        warnings := warnings + [CommandHandlerAssignedTwice(command)];
      }
      commandHandlers := commandHandlers[command := handler];
    }

    /** src/index.ts:81-85: as for commands, for global component handlers. */
    method RegisterComponentHandler(id: string, handler: ComponentHandler)
      modifies this`componentHandlers, this`warnings
      ensures id in componentHandlers && componentHandlers[id] == handler
      ensures componentHandlers.Keys == old(componentHandlers.Keys) + {id}
      ensures forall k | k in old(componentHandlers) && k != id :: componentHandlers[k] == old(componentHandlers[k])
      ensures warnings == old(warnings) + if id in old(componentHandlers) then [ComponentHandlerAssignedTwice(id)] else []
    {
      if id in componentHandlers {
        warnings := warnings + [ComponentHandlerAssignedTwice(id)];
      }
      componentHandlers := componentHandlers[id := handler];
    }

    /** src/index.ts:87-91: as for commands, for UI states. */
    method RegisterUiState(id: string, state: UiState)
      modifies this`uiStates, this`warnings
      ensures id in uiStates && uiStates[id] == state
      ensures uiStates.Keys == old(uiStates.Keys) + {id}
      ensures forall k | k in old(uiStates) && k != id :: uiStates[k] == old(uiStates[k])
      ensures warnings == old(warnings) + if id in old(uiStates) then [UiStateExists(id)] else []
    {
      if id in uiStates {
        warnings := warnings + [UiStateExists(id)];
      }
      uiStates := uiStates[id := state];
    }

    /**
     * src/index.ts:165-186 with onCommand (195-207) and onComponent (243-269): the route taken,
     * the interaction as dispatch leaves it, and the warning logged for an unhandled route.
     * `chars` and `perms` stand for the flag alphabet and the permission tests; `contexts` holds
     * the live reply contexts by the id of the interaction that created their message.
     */
    method EmitInteraction(i: Interaction, chars: FlagChars, perms: PermissionStrings,
                           contexts: map<string, ReplyContext>) returns (route: Route)
      modifies i, this`warnings
      ensures route == Dispatch(old(i.user), old(i.member), old(i.data), old(i.origin), botAdmins, chars, perms,
                                commandHandlers, componentHandlers, uiStates, contexts)
      ensures warnings == old(warnings) + RouteWarnings(route)
      ensures !i.answered
      ensures i.user == ActorOf(old(i.user), old(i.member))
      ensures i.member == old(i.member) && i.origin == old(i.origin)
      ensures route.ActorMissing? || old(i.data).UnknownData? ==> i.data == old(i.data)
      ensures !route.ActorMissing? && old(i.data).CommandData? ==>
              var d := old(i.data);
              i.data == CommandData(d.name, d.options, WriteAll(d.option, OrEmpty(d.options)))
      ensures !route.ActorMissing? && old(i.data).ComponentData? ==>
              var decoded := DecodeCustomId(old(i.data).customId);
              i.data == ComponentData(decoded.id, decoded.flags)
    {
      i.answered := false;
      if i.user.None? {
        if i.member.None? {
          // `i.member.user` throws a TypeError here in the source.
          route := ActorMissing;
          return;
        }
        i.user := Some(i.member.value.user);
      }
      var actor := i.user.value;
      match i.data {
        case CommandData(name, options, option) =>
          var lookup := MaterializeOptions(option, OrEmpty(options));
          i.data := CommandData(name, options, lookup);
          route := RouteCommand(name, commandHandlers, uiStates);
        case ComponentData(customId, _) =>
          var decoded := DecodeCustomId(customId);
          i.data := ComponentData(decoded.id, decoded.flags);
          var check := ComponentPermissionCheck(botAdmins, chars, perms, actor, decoded.flags, i.origin, i.member);
          route := RouteComponent(check, decoded.id, FindContext(contexts, i.origin), componentHandlers, uiStates);
        case UnknownData(code) =>
          route := IgnoreUnknownType(code);
      }
      warnings := warnings + RouteWarnings(route);
    }
  }

  /** Names every plain JavaScript object inherits from `Object.prototype`. */
  const InheritedKeys: set<string> := {
    "constructor", "hasOwnProperty", "isPrototypeOf", "propertyIsEnumerable", "toLocaleString",
    "toString", "valueOf", "__proto__", "__defineGetter__", "__defineSetter__",
    "__lookupGetter__", "__lookupSetter__"}

  /**
   * The truthiness test `if (handlers[key])` as the source writes it on a plain object: an own
   * entry and an inherited member both read as a registered handler.
   */
  predicate LooksRegisteredAsWritten<H>(handlers: map<string, H>, key: string)
  {
    key in handlers || key in InheritedKeys
  }

  /** A route of the code as written: a modelled route, or a call of an inherited `Object.prototype` member. */
  datatype AsWrittenRoute = Modelled(route: Route) | InheritedMember(key: string)

  /**
   * src/index.ts:200-207 as written on plain objects: an inherited member passes the same
   * truthiness tests as a registered handler or UI state and is the function that gets called.
   */
  function RouteCommandAsWritten(name: string, commands: map<string, CommandHandler>,
                                 states: map<string, UiState>): (r: AsWrittenRoute)
    ensures name in commands ==> r == Modelled(RunCommandHandler(commands[name]))
    ensures name !in commands && name in InheritedKeys ==> r == InheritedMember(name)
    ensures name !in InheritedKeys ==> r == Modelled(RouteCommand(name, commands, states))
  {
    if name in commands then Modelled(RunCommandHandler(commands[name]))
    else if name in InheritedKeys then InheritedMember(name)
    else if name + "_main" in states then Modelled(RenderCommandState(name + "_main"))
    else Modelled(DeferChannelMessage(name))
  }

  /**
   * On an empty registry the key `constructor` already looks registered as written: its first
   * registration logs "assigned twice", and the command `constructor` calls the inherited
   * `Object` function where the model answers it with a deferred acknowledgement.
   */
  lemma ConstructorLooksRegistered()
    ensures LooksRegisteredAsWritten<CommandHandler>(map[], "constructor")
    ensures RouteCommandAsWritten("constructor", map[], map[]) == InheritedMember("constructor")
    ensures RouteCommand("constructor", map[], map[]) == DeferChannelMessage("constructor")
  {
  }
}
