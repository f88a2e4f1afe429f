/**
 * The middleware for the gateway's `GUILD_ROLE_UPDATE` dispatch: it writes
 * the updated role into the cached guild and emits the internal event
 * `on_guild_role_update`.
 */
module GuildRoleUpdate {
  import opened Roles
  import opened Guilds

  /** A role-update event, already decoded from the dispatch payload. */
  datatype GuildRoleUpdateEvent = GuildRoleUpdateEvent(guildId: Snowflake, role: Role)

  /** The internal event name the middleware emits. */
  const EventName: string := "on_guild_role_update"

  /**
   * The role list after the update: each role whose id is `role.id` is
   * replaced by `role`, every other role is kept, in the same order.
   */
  function ReplaceRole(roles: seq<Role>, role: Role): (r: seq<Role>)
    ensures |r| == |roles|
  {
    if roles == [] then []
    else [if roles[0].id != role.id then roles[0] else role] + ReplaceRole(roles[1..], role)
  }

  /** The roles of a list whose id differs from `id`, in order. */
  function Others(roles: seq<Role>, id: Snowflake): seq<Role>
  {
    if roles == [] then []
    else (if roles[0].id != id then [roles[0]] else []) + Others(roles[1..], id)
  }

  /** Position by position: a matching role becomes `role`, any other stays as it was. */
  lemma {:induction false} ReplaceRoleAt(roles: seq<Role>, role: Role, i: int)
    requires 0 <= i < |roles|
    ensures roles[i].id == role.id ==> ReplaceRole(roles, role)[i] == role
    ensures roles[i].id != role.id ==> ReplaceRole(roles, role)[i] == roles[i]
  {
    if i > 0 {
      ReplaceRoleAt(roles[1..], role, i - 1);
    }
  }

  /** The update is the list comprehension of the source, element for element. */
  lemma ReplaceRoleIsComprehension(roles: seq<Role>, role: Role)
    ensures ReplaceRole(roles, role)
         == seq(|roles|, i requires 0 <= i < |roles| => if roles[i].id != role.id then roles[i] else role)
  {
    var r := ReplaceRole(roles, role);
    forall i | 0 <= i < |roles|
      ensures r[i] == if roles[i].id != role.id then roles[i] else role
    {
      ReplaceRoleAt(roles, role, i);
    }
  }

  /** No role is added or dropped, and every position keeps its role id. */
  lemma ReplaceRoleKeepsIds(roles: seq<Role>, role: Role)
    ensures |ReplaceRole(roles, role)| == |roles|
    ensures forall i :: 0 <= i < |roles| ==> ReplaceRole(roles, role)[i].id == roles[i].id
  {
    forall i | 0 <= i < |roles|
      ensures ReplaceRole(roles, role)[i].id == roles[i].id
    {
      ReplaceRoleAt(roles, role, i);
    }
  }

  /** When no cached role has the event's id, the list is unchanged: nothing is inserted. */
  lemma {:induction false} ReplaceRoleAbsent(roles: seq<Role>, role: Role)
    requires forall i :: 0 <= i < |roles| ==> roles[i].id != role.id
    ensures ReplaceRole(roles, role) == roles
  {
    if roles != [] {
      ReplaceRoleAbsent(roles[1..], role);
    }
  }

  /** The roles with another id survive the update, in their original relative order. */
  lemma {:induction false} ReplaceRoleKeepsOthers(roles: seq<Role>, role: Role)
    ensures Others(ReplaceRole(roles, role), role.id) == Others(roles, role.id)
  {
    if roles != [] {
      ReplaceRoleKeepsOthers(roles[1..], role);
      assert ReplaceRole(roles, role)[1..] == ReplaceRole(roles[1..], role);
    }
  }

  /** Applying the same update twice gives the same list as applying it once. */
  lemma {:induction false} ReplaceRoleIdempotent(roles: seq<Role>, role: Role)
    ensures ReplaceRole(ReplaceRole(roles, role), role) == ReplaceRole(roles, role)
  {
    if roles != [] {
      ReplaceRoleIdempotent(roles[1..], role);
      assert ReplaceRole(roles, role)[1..] == ReplaceRole(roles[1..], role);
    }
  }

  /** The client, reduced to its guild cache: guild id to the cached guild object. */
  class Client {
    var guilds: map<Snowflake, Guild>

    constructor (guilds: map<Snowflake, Guild>)
      ensures this.guilds == guilds
    {
      this.guilds := guilds;
    }

    /**
     * `guild_role_update_middleware`: when the event's guild is cached,
     * replace its roles by the updated list; a guild missing from the cache
     * is left alone without an error. The result is always the internal
     * event name with the event itself.
     */
    method GuildRoleUpdateMiddleware(event: GuildRoleUpdateEvent) returns (name: string, result: GuildRoleUpdateEvent)
      modifies (if event.guildId in guilds then {guilds[event.guildId]} else {})`roles
      ensures name == EventName && result == event
      ensures guilds == old(guilds)
      ensures event.guildId in guilds ==>
                guilds[event.guildId].roles == ReplaceRole(old(guilds[event.guildId].roles), event.role)
      ensures forall g :: g in guilds.Values && (event.guildId !in guilds || g != guilds[event.guildId]) ==>
                g.roles == old(g.roles)
      ensures forall g :: g in guilds.Values ==> g.id == old(g.id) && g.unavailable == old(g.unavailable)
    {
      if event.guildId in guilds {
        var guild := guilds[event.guildId];
        guild.roles := ReplaceRole(guild.roles, event.role);
      }
      return EventName, event;
    }
  }

  /**
   * A rename of role 9 in guild 1: the guild caches role 9 named "old"; the update
   * carrying role 9 named "new" leaves the cached guild holding the new role
   * and emits `on_guild_role_update` with the event. An update for the
   * uncached guild 2 changes nothing and still emits the event.
   */
  method RoleRenameScenario()
  {
    var before := Role(9, "old", map[]);
    var after := Role(9, "new", map[]);
    var guild := new Guild(1, [before]);
    assert !guild.unavailable;
    var client := new Client(map[1 := guild]);
    var event := GuildRoleUpdateEvent(1, after);
    var name, result := client.GuildRoleUpdateMiddleware(event);
    assert guild.roles == [after];
    assert name == "on_guild_role_update" && result.role.name == "new";

    name, result := client.GuildRoleUpdateMiddleware(GuildRoleUpdateEvent(2, before));
    assert guild.roles == [after];
    assert name == "on_guild_role_update" && result.guildId == 2;
  }
}
