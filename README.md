# Bot slowmode handler and `post_embed` command, modelled in Dafny

This project models two pieces of the Zeppelin Discord bot's backend and proves what they do on every
path.

**Bot slowmode (`slowmode.dfy`, module `Slowmode`).** The Slowmode plugin runs `onMessageCreate` for
every saved message. The handler:

- ignores bot messages, and channels that are missing, not text-based, or stage channels;
- takes the message's lock, and stops at once if an earlier stage (a word filter, say) has already
  interrupted it;
- reads the channel's bot-slowmode configuration through the plugin's `channelSlowmodeCache`, a
  read-through map that also remembers "no slowmode" (`null`);
- unlocks and stops when there is no configuration or the author is not affected;
- raises one bot alert and stops when the bot lacks the permissions it needs;
- then either deletes the message, when the author is already under slowmode, or applies slowmode to
  the author.

The model is a class `SlowmodePlugin` that holds the cache and reads the database's slowmode table.
Its method `OnMessageCreate` creates a `MessageLock` (`interrupted`, unlock count, interrupt count) and
returns the exit taken and the trace of effects: acquire, store query, alert, delete, apply, interrupt
and unlock. The method is proved equal to a pure function, `OnMessageCreateStep`. That function is
built from two stages: `ReadThrough` (the cache) and `AfterConfigRead` (the checks after the read). The
properties are proved about these functions. The method has two helper methods, one for each stage.
`RunEvents` feeds a sequence of messages through the handler with one shared cache, and lemmas about
it state what the cache guarantees over the plugin's lifetime.

**`post_embed` (`post_embed.dfy`, module `PostEmbed`).** The command:

- picks the content (`-content` if given and non-empty, otherwise the trailing text);
- requires a title or some content;
- requires a `-color`, when one is given, to parse;
- builds an embed from the title, the colour (only when its integer value is non-zero) and either the
  formatted content as description or, with `-raw`, the content parsed as JSON, whose fields override
  the earlier ones;
- sends a deprecation notice when `-content` was used, and posts the embed once.

The method `Run` follows the command body statement by statement. It is proved against the pure
function `BuildEmbed`, which gives the embed or the first error.

Effects that leave the process are recorded in traces or given as inputs: the Discord client, the
database, permission checks, alerts, message deletion, applying slowmode, sending messages and posting.
The library functions `parseColor`, `rgbToInt`, `JSON.parse`, `isValidEmbed` and `formatContent` are
uninterpreted function values in `PostEmbed.Library`. `wrappers.dfy` holds `Option` and `Result`.

The lock handling depends on the path, and the model keeps it as the code has it, not as a rule
that every path releases the lock exactly once:

- The missing-permissions path (line 56) raises its alert and returns without unlocking.
- The successful-delete path (line 69) interrupts the lock and does not unlock it.
- The already-interrupted path (line 23) neither unlocks nor interrupts.

`ExitEffects` and `LockDiscipline` state the first two paths and the counts on every path after the
configuration read. The third is stated by `OnMessageCreateStep`: an interrupted lock gives
`AlreadyInterrupted` with only the acquire in the trace and a lock record with no unlock and no
interrupt.

## Model

| member | source | states |
|---|---|---|
| Slowmode.OnMessageCreateStep | backend/src/plugins/Slowmode/util/onMessageCreate.ts:15-79 | A bot message, or a channel that is missing, not text-based or a stage channel, returns with no lock, no effect and the cache unchanged. A lock is acquired exactly on the other messages. An interrupted lock returns right after acquiring: no cache read, no unlock. Otherwise the cache is read through and the rest of the handler runs on the result. Every effect concerns this message. Existing cache entries are kept. The store is queried only for a channel that was not cached, and that channel is cached afterwards. |
| Slowmode.ReadThrough | backend/src/plugins/Slowmode/util/onMessageCreate.ts:26-32 | On a hit the cache is unchanged and the store is not queried. On a miss the store's answer, `null` included, is stored under the channel id and is the result. No other key changes. Afterwards the channel is always cached. |
| Slowmode.AfterConfigRead | backend/src/plugins/Slowmode/util/onMessageCreate.ts:33-78 | The exit taken, as an if-and-only-if on each condition in source order: no config or not affected; missing permissions (non-zero bitfield); author already slowmoded, with the delete succeeding or failing; otherwise apply. The final lock state equals the trace's interrupt flag and its unlock and interrupt counts. |
| Slowmode.ExitEffects | backend/src/plugins/Slowmode/util/onMessageCreate.ts:33-78 | An alert is sent, exactly once, iff permissions are missing. A delete is attempted, at most once, iff the author already has slowmode; when it succeeds the trace is exactly the delete followed by the interrupt. Slowmode is applied iff on the last exit, and then exactly apply and unlock happen. An unlock happens (at most once) iff on the no-config, not-affected, delete-failed or applied exits. An interrupt happens (at most once) iff the delete succeeded. |
| Slowmode.LockDiscipline | backend/src/plugins/Slowmode/util/onMessageCreate.ts:22-78 | On every path: at most one unlock and at most one interrupt; an interrupt only after a successful delete of an already-slowmoded author's message; the lock record agrees with the trace. |
| Slowmode.SlowmodePlugin.OnMessageCreate | backend/src/plugins/Slowmode/util/onMessageCreate.ts:15-79 | The imperative handler gives the same exit and trace as `OnMessageCreateStep`, and leaves the cache as that function says. It returns a fresh lock exactly when one is acquired, in the state the function gives. |
| Slowmode.SlowmodePlugin.ReadChannelSlowmode | backend/src/plugins/Slowmode/util/onMessageCreate.ts:26-32 | The in-place cache update and the value read are those of `ReadThrough`. |
| Slowmode.SlowmodePlugin.EnforceAfterConfigRead | backend/src/plugins/Slowmode/util/onMessageCreate.ts:33-78 | Starting from a held, uninterrupted lock, the exit, trace and final lock state are those of `AfterConfigRead`. |
| Slowmode.CachedEntriesNeverChange | backend/src/plugins/Slowmode/util/onMessageCreate.ts:27-31 | Over any sequence of handler calls that do not interleave, the cache has no expiry: an entry, once present, is never dropped or replaced. |
| Slowmode.StoreQueriedAtMostOnce | backend/src/plugins/Slowmode/util/onMessageCreate.ts:27-31 | Over any sequence of handler calls that do not interleave, the store is queried at most once per channel, and never for a channel that was already cached. |
| Slowmode.CacheAgreesWithStore | backend/src/plugins/Slowmode/util/onMessageCreate.ts:29-31 | If the store does not change and every cache entry starts out equal to the store's answer, `null` included, then every entry stays equal to it over any sequence of messages. |
| PostEmbed.EffectiveContent | backend/src/plugins/Post/commands/PostEmbedCmd.ts:31 | The content is `-content` when that is truthy, otherwise the trailing text. The result is truthy iff either of them is. |
| PostEmbed.CommandPrefix | backend/src/plugins/Post/commands/PostEmbedCmd.ts:75 | The configured prefix when it is truthy, otherwise `"!"`; never empty. |
| PostEmbed.BaseEmbed | backend/src/plugins/Post/commands/PostEmbedCmd.ts:38-51 | The embed before content has only `title` and `color`. `title` is present iff a title is given, and holds it. `color` is present iff a colour is given and its integer value is non-zero, so a colour of 0 is omitted. |
| PostEmbed.BuildEmbed | backend/src/plugins/Post/commands/PostEmbedCmd.ts:31-72 | Errors come in the source's order: title-or-content first, then an invalid colour, then (raw mode with content) a JSON syntax error carrying the parser's message, then an invalid embed. Each error holds iff its condition and no earlier one holds. Without raw mode, the embed is the base fields plus `description` = the formatted content, exactly when there is content. In raw mode it has the keys of both, the parsed fields winning key by key. |
| PostEmbed.Run | backend/src/plugins/Post/commands/PostEmbedCmd.ts:30-86 | An error is sent alone: no notice and no post. On success the deprecation notice, naming the prefix, is sent iff `-content` was truthy. Then `actualPostCmd` is called once, last, with a one-element embed list holding `BuildEmbed`'s embed. A post occurs iff there is no error. |
| PostEmbed.ZeroColorIsDropped | backend/src/plugins/Post/commands/PostEmbedCmd.ts:39-51 | Given a title or content, a colour that parses but converts to 0 raises no error and, outside raw mode with content (where the parsed JSON may supply its own `color`), yields an embed without `color`. |

## Left out

- Waiting for a lock, mutual exclusion between concurrent handlers, and lock timeouts. The lock
  manager is not part of this model: a lock is a record of its interrupt flag and of how often it was
  unlocked and interrupted. `Interrupt` only sets the flag; whether the lock library also releases the
  lock on interrupt is not modelled.
- Interleaving of concurrent handlers between the cache check (line 27) and the cache write (line 31):
  one handler call is modelled as one atomic step. The lock at line 22 is per message, so two messages
  in an uncached channel can both miss the cache at line 27 and both query the store at line 30; the
  later `set` at line 31 then replaces the earlier entry, which is stale if the store changed in
  between. `CachedEntriesNeverChange` and `StoreQueriedAtMostOnce` hold only for handler calls that
  do not interleave.
- Failures of `getChannelSlowmode`, `resolveMember`, `hasPermission`, `userHasSlowmode` and
  `applyBotSlowmodeToUserId`; of the lookup of the bot's own member at line 49, whose non-null
  assertions (`user!`, `get(...)!`) are unchecked at runtime, so a missing client user throws there
  and a missing member reaches `getMissingChannelPermissions` (line 50) as `undefined`; of
  `getMissingChannelPermissions` itself; and of `getPlugin` and `logBotAlert` (lines 52-53). The
  source does not catch these, so each would leave the handler by an exception, with the lock still
  held. The model has no exception exit and treats these calls as always answering.
- The internals of `applyBotSlowmodeToUserId` (creating, expiring and rolling back the lease), and of
  `userHasSlowmode` (expiry of a lease record). They are not part of this model; the apply is one
  recorded effect and the lease check an input.
- The debug `console.log` before the delete, and the text of the alert, the error messages and the
  deprecation notice. The model records only which message is sent and the data it names.
- Command-argument parsing and the scheduling and repeat options (`schedule`, `repeat`,
  `repeat-until`, `repeat-times`), which are only passed through to `actualPostCmd`.
- The internals of `parseColor`, `rgbToInt`, `JSON.parse`, `isValidEmbed`, `formatContent`,
  `trimLines` and `sendErrorMessage`. JSON numbers are integers, and `rgbToInt` returns an integer, so
  a `NaN` colour does not arise.
- PostEmbed.BuildEmbed: in raw mode `Object.assign` would copy index keys from a parsed array or string. The
  model copies keys only from a parsed object, and `isValidEmbed` is expected to accept only objects.
- The cache is never invalidated by this code. Configuration changes made elsewhere (which would
  clear cache entries) are not part of this model.
