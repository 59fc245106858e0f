# Cordo interaction router, modelled in Dafny

Cordo routes the interactions a Discord bot receives (slash-command invocations and
activations of message components such as buttons) to handlers the application has
registered. This project models the router class `Cordo` of `src/index.ts`:

- **Handler registries**: three string-keyed tables (command handlers, component handlers,
  UI states). A registration overwrites the entry and logs a warning when the key was
  already taken (`Router.Cordo`).
- **Handler names from file names**: `<prefix>_<file up to its first dot>`, with trailing
  underscores stripped; only `.js` files are registered, dot-less entries are walked as
  sub-directories (`HandlerNames`).
- **Custom-id flag decoding**: a component id `id-xyz` carries the access-flag characters
  `x`, `y`, `z` after its first `-`. Further dashes are dropped, and the flags form a list:
  duplicates and unknown characters stay in it (`CustomId`).
- **Authorization**: a first-match-wins chain. A bot owner passes. The BOT_ADMIN flag denies
  everyone else. Without EVERYONE only the invoker of the original command may interact. Outside
  a guild the rest passes. Inside one the first missing permission among administrator, manage
  server and manage messages is the reason (`Permissions`).
- **Dispatch**: normalise the acting user. A command runs its handler, else the UI state
  `<name>_main`, else it gets a deferred acknowledgement. A component is decoded and checked
  first. It then runs the reply context's handler for its id, else the global handler, else
  the UI state of the same name, else it gets a deferred update (`Routing`, `Router.Cordo.EmitInteraction`).
  Routes are returned as values; nothing is sent.

The flag characters and the permission-bit tests are defined in modules that are not part of
this model (`./types/const`, `./lib/permission-strings`). They are parameters here: `FlagChars`
(five distinct characters, none of them `-`) and `PermissionStrings` (three predicates on a
member's permission value). A `botAdmins` predicate is an arbitrary `string -> bool`. Reply
contexts (`./replies`) are not part of this model either. Of a context the router reads the
handler map, looked up by exact custom id, and the timer fields `resetTimeoutOnInteraction`,
`timeoutRunner`, `timeoutRunFunc` and `timeout` (src/index.ts:255-260). The model keeps only the
handler map, and it looks a context up by the id of the message's originating interaction.

Facts about the code that the model keeps:
- The decoded flags form a list. Duplicates and unknown characters stay in it; an unknown
  character never matches a flag test.
- A component without EVERYONE, on a message that has no originating interaction, is denied as
  not owned: `undefined !== user.id` holds (src/index.ts:227).
- `src/index.ts` looks up context handlers by exact custom id only (src/index.ts:260).
- The reply-context type declares an `onInteraction` option ('restartTimeout', 'removeTimeout',
  'triggerTimeout', 'doNothing'; src/types/custom.ts:51, 60-62). `src/index.ts` never reads it.
  It resets the timer only when the context's `resetTimeoutOnInteraction` is set, a field the
  declared context type does not have (src/index.ts:255).

## Model

| member | source | states |
|---|---|---|
| `CustomId.WithoutDashes` | src/index.ts:249 | `split('-').join('')` leaves no `-`, never lengthens, and keeps every other character with its multiplicity |
| `CustomId.WithoutDashesAppend` | src/index.ts:249 | dropping dashes distributes over concatenation, so the flag characters keep their order |
| `CustomId.WithoutDashesKeeps` | src/index.ts:249 | a dash-free flag string comes through unchanged, duplicates included |
| `CustomId.DecodeCustomId` | src/index.ts:244-250 | an id without `-` is kept and gets no flags; otherwise the raw id is the dash-free stored id, a `-`, and a rest whose dash-free characters are the flags; stored id and flags never contain `-` |
| `CustomId.DecodeSplitsAtFirstDash` | src/index.ts:245-249 | for any dash-free id and any rest, decoding `id + "-" + rest` yields `id` and the rest without dashes |
| `CustomId.DecodeJoined` | src/index.ts:245-249 | round trip: a dash-free id joined by `-` to dash-free flag characters decodes to exactly that id and those flags, in order |
| `Permissions.IsBotOwner` | src/index.ts:289-296 | with `botAdmins` unset nobody is an owner; with a list, owner iff the id is in it; with a predicate, owner iff the predicate holds of the id |
| `Permissions.ComponentPermissionCheck` | src/index.ts:221-241 | a bot owner passes for every flag list, member and originator; a non-owner is denied BotAdmin whenever BOT_ADMIN is present; without EVERYONE a non-owner other than the original invoker (or with no originating interaction) is denied NotOwned; past those, a non-member passes and a member gets the first missing guild permission in the fixed order |
| `Permissions.FirstMissingPassesExactly` | src/index.ts:233-240 | the guild checks pass iff every demanded permission is held |
| `Permissions.FirstMissingIsFirst` | src/index.ts:233-238 | a guild denial names a demanded, missing permission and every earlier check was satisfied |
| `Permissions.PassedExactlyWhen` | src/index.ts:221-241 | a component is let through iff the actor is a bot owner, or the flags clear ownership and (outside a guild, or) every demanded guild permission is held |
| `CommandOptions.MaterializeOptions` | src/index.ts:197-198 | the loop leaves the lookup equal to writing every option, first to last, into the prior lookup |
| `CommandOptions.LastOptionWins` | src/index.ts:197-198 | the last option carrying a name decides that name's value |
| `CommandOptions.UnnamedKeepsPrior` | src/index.ts:197-198 | a name no option carries keeps its prior value or stays absent |
| `HandlerNames.FirstSegment` | src/index.ts:97 | `file.split('.')[0]` is the prefix of the file name that stops at its first dot, the whole name when it has no dot |
| `HandlerNames.TrimTrailingUnderscores` | src/index.ts:98 | the result is a prefix of the input, everything cut off is `_`, and it does not end in `_` |
| `HandlerNames.TrimmedIsUnique` | src/index.ts:98 | those three properties determine the trimmed name |
| `HandlerNames.DerivedNameIsDotFree` | src/index.ts:97-98 | under a dot-free prefix the derived name contains no `.` |
| `HandlerNames.DeriveHandlerName` | src/index.ts:97-98 | the trimming loop yields the derived name; it never ends in `_`, and has no `.` under a dot-free prefix |
| `HandlerNames.ClassifyEntry` | src/index.ts:97-105 | an entry with a dot not ending in `.js` is skipped; one ending in `.js` is registered under the derived name; a dot-less entry is descended into with the derived name as prefix |
| `HandlerNames.NestedNamesAreClean` | src/index.ts:93-106 | however deep the directory walk goes from the root, a registered name has no `.` and no trailing `_` |
| `HandlerNames.PrefixIsDotFree` | src/index.ts:104 | every prefix handed down the directory walk is dot-free |
| `Routing.RouteCommand` | src/index.ts:200-207 | a command resolves to its handler, else to UI state `<name>_main`, else to a deferred acknowledgement for that name |
| `Routing.RouteComponent` | src/index.ts:260-269 | a denied component gets only the denial; an allowed one resolves to the context handler for its id, else the global handler, else the same-named UI state, else a deferred update |
| `Routing.Dispatch` | src/index.ts:165-186 | no user and no member means no route (the source throws a TypeError at src/index.ts:174); with an actor, a command takes exactly `RouteCommand` of its name, and a component takes exactly `RouteComponent` of the permission check on its decoded flags, its decoded id and the message's reply context; an unknown type is only logged; application code runs for a component only when that check passed |
| `Routing.ActorOf` | src/index.ts:173-174 | the top-level user acts when present, else the member's user; there is no actor only when both are absent |
| `Routing.FindContext` | src/index.ts:254 | a context is found only through the originating interaction's id, and it is the context stored under that id; without an originating interaction there is none |
| `Permissions.InvokedBy` | src/index.ts:227 | the actor counts as the invoker iff an originating interaction exists and its user id is the actor's id |
| `HandlerNames.Qualify` | src/index.ts:97 | without a prefix the name is the segment; with one it is the prefix, `_`, then the segment |
| `CommandOptions.OrEmpty` | src/index.ts:197 | an absent option list is walked as the empty list, a present one as itself |
| `Router.RouteCommandAsWritten` | src/index.ts:200-207 | as written, a registered handler still wins, an unregistered inherited key calls the `Object.prototype` member, and every other name routes as `RouteCommand` |
| `Routing.RegisteredCommandRoutesToIt` | src/index.ts:200-201 | after registering a command handler the command routes to it |
| `Routing.RegistrationLeavesOtherCommands` | src/index.ts:78 | registering one command leaves the route of every other command unchanged |
| `Routing.MainStateAnswersUnhandledCommand` | src/index.ts:202-203 | a UI state `<name>_main` answers a command with no handler |
| `Routing.RegisteredComponentRoutesToIt` | src/index.ts:262-263 | an allowed component not claimed by the reply context routes to the registered global handler |
| `Routing.AdminCheckedBeforeManageMessages` | src/index.ts:233-238 | `confirm-` plus the administrator and manage-messages flags, pressed by its invoker lacking administrator, decodes to `confirm` and is denied GuildAdmin |
| `Routing.OthersCannotUseOwnerOnlyComponent` | src/index.ts:227-228 | without EVERYONE or BOT_ADMIN, a non-owner who did not invoke the command is denied NotOwned, whatever guild permissions they hold |
| `Routing.RouteWarnings` | src/index.ts:205 | only unhandled commands, unhandled components and unknown types are logged, one warning each |
| `Router.Cordo.RegisterCommandHandler` | src/index.ts:75-79 | the key now maps to the new handler, all other entries are unchanged, and a warning is logged iff the key was already set |
| `Router.Cordo.RegisterComponentHandler` | src/index.ts:81-85 | the same for global component handlers |
| `Router.Cordo.RegisterUiState` | src/index.ts:87-91 | the same for UI states |
| `Router.Cordo.EmitInteraction` | src/index.ts:165-186 | the route taken is `Dispatch` of the interaction and the registries; `answered` is false, the user is normalised, command options are materialised, a component's id and flags are decoded in place, and the route's warning is appended to the log |
| `Router.ConstructorLooksRegistered` | src/index.ts:76 | on an empty registry the as-written test already sees `constructor` as registered and the as-written route calls the inherited member, while the model routes that command to a deferred acknowledgement |

## Left out

- Directory walking and module loading (`fs.readdirSync`, `require`, `path.join`, src/index.ts:93-147) are file-system I/O. Only the per-entry decision is modelled (`ClassifyEntry`). A dot-less regular file would be read as a directory; that is an I/O failure and is not modelled.
- `init`, the middleware setters and the `_data` getter (src/index.ts:49-71, 151-161) are configuration plumbing. The model takes `botAdmins` as the router's configuration.
- Guild-data and user-data middleware and their `await`s (src/index.ts:168-171, 176-179) are foreign asynchronous callbacks.
- Sending replies (`CordoAPI.interactionCallback`, `interactionNotPermitted`, `interactionNotOwned`, src/index.ts:206, 268, 272-287) is network transport. A `Route` value names what would be sent; the denial texts are not modelled.
- Running handlers and UI states, and the `_answered` flag they set, belong to the reply module, which is not part of this model.
- The exception handling of `onCommand` (src/index.ts:196-218) is not modelled. Its `try` wraps the option loop (197-198), the reply builders (201, 203), the handler call (201) and the deferred acknowledgement (206). A fault in any of them gets the generic `interaction_failed` reply (211-214) instead of the route the model gives.
- Router.Cordo.EmitInteraction: the model assumes the caller supplies the lookup `i.data.option`. `src/index.ts` never creates it. If an inbound command with options lacks it, the write at src/index.ts:198 throws, and the command gets the `interaction_failed` reply instead of its handler. The shape of the inbound interaction is defined in a module that is not part of this model.
- Router.Cordo.EmitInteraction: the component path finishes asynchronously in the source, and the model treats it as one step. `onComponent` is `async` and is not awaited at src/index.ts:184. It awaits at src/index.ts:222 and 252 before its lookups (260-264) and its warning (267). So `emitInteraction` returns before a component's route is decided. A later interaction's warning can be logged first, and a registration made in between changes which handler the component reaches.
- Router.Cordo.EmitInteraction: with neither a user nor a member the source throws a TypeError at src/index.ts:174; the model returns the route `ActorMissing` and leaves the interaction's data unchanged.
- Router.Cordo.EmitInteraction: the reply-context timer reset (src/index.ts:255-258) is wall-clock scheduling in the reply module and is not modelled. The new timer handle is not stored back into the context.
- Routing.FindContext: `findActiveInteractionReplyContext` is not part of this model; a lookup by the originating interaction's id in a map of live contexts stands for it.
- Routing.RouteComponent: `.state()` without arguments renders a state chosen by the reply module; the model records the custom id the source looked up.
- Registry lookups test the truthiness of an entry. A registered falsy value (such as `undefined`) is not modelled, and neither are inherited object members; the second is listed under Findings.
- `NumberValue` option values are `real`s; floating-point rounding is not modelled. An option without a value (a sub-command or group) is stored as `NoValue`.
- CustomId.DecodeCustomId: `split('')` at src/index.ts:249 splits into UTF-16 code units, while a Dafny `char` is a Unicode scalar value. A character outside the Basic Multilingual Plane is one flag character in the model and two surrogate halves in the source. No flag test matches either, so no permission decision changes.
- src/v2/interactions/autocomplete-interaction.ts only copies `options` through and is not modelled.

## Findings

| source | as written | input that shows it | evidently intended | confidence | as-written member | corrected member |
|---|---|---|---|---|---|---|
| src/index.ts:76 | the registries are plain objects, so `if (handlers[key])` is truthy for keys inherited from `Object.prototype` | registering command `constructor` first time logs "got assigned twice"; an unregistered command `constructor` runs `Object` instead of getting a deferred acknowledgement | only keys registered through `register*` count as present | not executed; high | `Router.LooksRegisteredAsWritten` and `Router.RouteCommandAsWritten` (exhibited by `Router.ConstructorLooksRegistered`) | `Router.Cordo.RegisterCommandHandler` (warning iff the key was registered before) and `Routing.RouteCommand` |
