# Pincer guild cache: role updates and guild codes

A Dafny model of two pieces of the Pincer gateway client for Discord:

- the middleware for the gateway's `GUILD_ROLE_UPDATE` dispatch, which
  writes the updated role into the client's cached guild (replacing every
  cached role with the same snowflake id at the same positions, by assigning a
  new list to the cached guild object's `roles` field) and emits the
  internal event `("on_guild_role_update", event)`;
- the guild object's integer-coded enumerations (premium tier, NSFW level,
  explicit-content filter, MFA level, verification level, default
  notification level, system channel flags) and the `Guild.from_dict` guard
  that refuses a guild marked unavailable by an outage.

Modules: `Wrappers` (Option, Result), `Payload` (JSON values of a payload
dictionary and Python's truth value of them), `Roles` (snowflakes and roles),
`Guilds` (`pincer/objects/guild/guild.py`) and `GuildRoleUpdate`
(`pincer/middleware/guild_role_update.py`).

The role replacement is the function `ReplaceRole` with lemmas about it; the
cache is the class `Client` whose `guilds` map holds `Guild` objects, and the
middleware is a method that assigns the `roles` field of the cached guild
object and nothing else. `RoleRenameScenario` is a client of that method's
contract: a rename of role 9 in guild 1, then an update for an uncached
guild.

Modelling choices:

- The decoded event (`GuildRoleUpdateEvent.from_dict`) is the method's input;
  the gateway argument is unused by the source and left out.
- The generic object decoder behind `Guild.from_dict` is the total function
  parameter `decode`.
- `data.get("unavailable", False)` is tested with Python's truth value, so
  `null`, `0`, `""`, `[]` and `{}` count as available, like a missing key.
- `Guild.from_dict` is modelled twice. `Guild.FromDictAsWritten` is the code as
  it stands: `UnavailableGuildError` is imported only under `TYPE_CHECKING`
  (guild.py:13, 29), so a refused payload ends in `NameError` (see
  "## Findings"). `Guild.FromDict` is the intended decoder, with the import in
  place: it reports `UnavailableGuildError` with the payload's id, or `KeyError`
  when the refused payload has no `"id"` key, because the message reads
  `data["id"]` before the exception is built.
- `SystemChannelFlags` is an `IntEnum`, not an `IntFlag`: `FromCode` accepts
  only 1, 2 and 4; 0 (no flag) and combinations such as 3 have no member,
  although the field carries them (`FlagCombinationsHaveNoMember`). Whether the
  generic decoder converts the field through the enum is not visible, so this
  is recorded here and not as a finding. Combinations of flags are modelled as
  8-bit values built by OR (`Combine`) and read bit by bit (`FlagSet`).
- The `Code()` contracts bound each enumeration's codes; which member carries
  which integer is fixed by the bodies, which follow guild.py:47-155.
- `Snowflake` is an unbounded integer.

## Model

| member | source | states |
|---|---|---|
| `Guilds.PremiumTier.Code` | pincer/objects/guild/guild.py:47-50 | every tier's code lies in 0..3 |
| `Guilds.PremiumTier.FromCode` | pincer/objects/guild/guild.py:33-50 | a code decodes exactly when it is in 0..3, and to the one tier whose code it is (decode after encode and encode after decode are identities) |
| `Guilds.GuildNSFWLevel.Code` | pincer/objects/guild/guild.py:67-70 | every level's code lies in 0..3 |
| `Guilds.GuildNSFWLevel.FromCode` | pincer/objects/guild/guild.py:53-70 | a code decodes exactly when it is in 0..3, and to the one level with that code |
| `Guilds.ExplicitContentFilterLevel.Code` | pincer/objects/guild/guild.py:85-87 | every level's code lies in 0..2 |
| `Guilds.ExplicitContentFilterLevel.FromCode` | pincer/objects/guild/guild.py:73-87 | a code decodes exactly when it is in 0..2, and to the one level with that code; other codes have no value |
| `Guilds.MFALevel.Code` | pincer/objects/guild/guild.py:100-101 | every level's code lies in 0..1 |
| `Guilds.MFALevel.FromCode` | pincer/objects/guild/guild.py:90-101 | a code decodes exactly when it is 0 or 1, and to the one level with that code |
| `Guilds.VerificationLevel.Code` | pincer/objects/guild/guild.py:120-124 | every level's code lies in 0..4 |
| `Guilds.VerificationLevel.FromCode` | pincer/objects/guild/guild.py:104-124 | a code decodes exactly when it is in 0..4, and to the one level with that code |
| `Guilds.DefaultMessageNotificationLevel.Code` | pincer/objects/guild/guild.py:137-138 | every level's code lies in 0..1 |
| `Guilds.DefaultMessageNotificationLevel.FromCode` | pincer/objects/guild/guild.py:127-138 | a code decodes exactly when it is 0 or 1, and to the one level with that code |
| `Guilds.SystemChannelFlags.Code` | pincer/objects/guild/guild.py:153-155 | every flag's code is 1, 2 or 4 |
| `Guilds.SystemChannelFlags.Bit` | pincer/objects/guild/guild.py:153-155 | every flag's value is a single bit among the three low bits, equal to its code |
| `Guilds.SystemChannelFlags.FromCode` | pincer/objects/guild/guild.py:141-155 | a code decodes exactly when it is 1, 2 or 4, and to the one flag with that code |
| `Guilds.FlagBitsDisjoint` | pincer/objects/guild/guild.py:153-155 | two flags share a bit if and only if they are the same flag |
| `Guilds.Combine` | pincer/objects/guild/guild.py:153-155 | OR-ing any flags together sets no bit above the three flag bits |
| `Guilds.FlagSet` | pincer/objects/guild/guild.py:153-155 | a flag is read from a value exactly when its bit is set |
| `Guilds.FlagSetCombine` | pincer/objects/guild/guild.py:153-155 | any collection of flags OR-ed together reads back as exactly that set of flags |
| `Guilds.CombineFlagSet` | pincer/objects/guild/guild.py:153-155 | a value within the three flag bits is the OR of exactly the flags read from it: encoding is determined by the set |
| `Guilds.FlagCombinationsHaveNoMember` | pincer/objects/guild/guild.py:141-155 | the enum has no member for 0 or for two flags combined, while the bit reading gives the empty set and the two flags |
| `Guilds.Guild.constructor` | pincer/objects/guild/guild.py:342-343 | a guild built without an explicit `unavailable` value is available |
| `Guilds.Guild.FromDict` | pincer/objects/guild/guild.py:431-439 | as intended, with `UnavailableGuildError` importable: decoding fails exactly when the payload's `unavailable` value (missing counts as false) is truthy, with `UnavailableGuildError` carrying the payload's id (or the `KeyError` when there is no id); otherwise the result is the generic decoder's |
| `Guilds.Guild.FromDictAsWritten` | pincer/objects/guild/guild.py:431-439 | as written, a payload with a truthy `unavailable` ends in `NameError` for the unbound `UnavailableGuildError`; any other payload is the generic decoder's |
| `Guilds.FromDictAsWrittenRaisesNameError` | pincer/objects/guild/guild.py:431-439 | the as-written and intended decoders refuse the same payloads and agree on the rest, but as written a refusal is never `UnavailableGuildError`; on `{"unavailable": true, "id": "1"}` one gives `NameError`, the other reports guild "1" |
| `Guilds.FromDictAvailable` | pincer/objects/guild/guild.py:433-439 | a payload without `unavailable`, or with a falsy one, is decoded by delegation |
| `Guilds.FromDictUnavailable` | pincer/objects/guild/guild.py:433-437 | a payload whose `unavailable` value is truthy is always refused |
| `GuildRoleUpdate.ReplaceRole` | pincer/middleware/guild_role_update.py:41-44 | the updated role list has as many roles as the cached one |
| `GuildRoleUpdate.ReplaceRoleAt` | pincer/middleware/guild_role_update.py:42 | each position whose role id equals the event role's id holds the event role afterwards; every other position keeps its role |
| `GuildRoleUpdate.ReplaceRoleIsComprehension` | pincer/middleware/guild_role_update.py:41-44 | the recursive update equals the source's list comprehension, element for element |
| `GuildRoleUpdate.ReplaceRoleKeepsIds` | pincer/middleware/guild_role_update.py:41-44 | no role is inserted or dropped and each position keeps its role id |
| `GuildRoleUpdate.ReplaceRoleAbsent` | pincer/middleware/guild_role_update.py:41-44 | when no cached role has the event's role id the list is unchanged (no insertion) |
| `GuildRoleUpdate.ReplaceRoleKeepsOthers` | pincer/middleware/guild_role_update.py:41-44 | the roles with other ids are all still there, in their original relative order |
| `GuildRoleUpdate.ReplaceRoleIdempotent` | pincer/middleware/guild_role_update.py:41-44 | applying the same update twice gives the same list as applying it once |
| `GuildRoleUpdate.Client.GuildRoleUpdateMiddleware` | pincer/middleware/guild_role_update.py:19-46 | returns `("on_guild_role_update", event)` whether or not the guild is cached; the cache map is unchanged; the cached guild's roles become the replaced list; no other guild object changes, and an uncached guild id changes nothing and raises nothing; ids and availability of all guilds are untouched |

## Findings

| source | as written | input that shows it | evidently intended | confidence | as-written member | corrected member |
|---|---|---|---|---|---|---|
| pincer/objects/guild/guild.py:434 | `raise UnavailableGuildError(...)` names a class imported only under `if TYPE_CHECKING:` (lines 13, 29), so the name is unbound at run time and the raise fails with `NameError` | `{"unavailable": true, "id": "1"}` | raise `UnavailableGuildError` naming guild "1" | high, not executed | `Guilds.FromDictAsWrittenRaisesNameError` | `Guilds.Guild.FromDict` |

## Left out

- The async/coroutine nature of the middleware and concurrent access to the
  guild cache: one update is one atomic sequential step.
- `GuildRoleUpdateEvent.from_dict` and the generic `APIObject.from_dict`: their
  code is not part of this model; the first is replaced by its decoded result,
  the second by the parameter `decode`.
- The truth value of the cached `Guild` object in `if guild := ...`: taken to be
  true, because `APIObject` (not part of this model) is not shown to define
  `__bool__` or `__len__`.
- The text of the `UnavailableGuildError` message: the error carries the
  payload's id value instead of the formatted string.
- `Guild.from_id`, `Guild.get_member` and `Guild.modify_member`: REST calls
  through the HTTP client, network I/O.
- All guild fields other than `id`, `roles` and `unavailable`: the modelled
  operations do not touch them; the enumerations are modelled on their own.
- Floating point values in payloads: not needed by the guard.
- `pincer/__main__.py`: command-line parsing, opening a browser and printing the
  version, all I/O.
- `pincer/middleware/guild_member_add.py` and `pincer/middleware/message_create.py`:
  each only wraps one decoder call, whose code is not part of this model.
- The gateway session, heartbeat and dispatcher: not in the modelled files.
