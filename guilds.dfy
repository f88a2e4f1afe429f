/**
 * The guild object: its integer-coded enumerations (each an `IntEnum` whose
 * values are the protocol's wire integers), the guild record reduced to the
 * fields the gateway code touches, and the decoding guard that refuses a
 * guild that is unavailable because of an outage.
 *
 * For every enumeration, `Code()` is the member's integer value and
 * `FromCode(c)` is the call `Enum(c)`, which yields `None` exactly where
 * Python raises `ValueError`.
 */
module Guilds {
  import opened Wrappers
  import opened Payload
  import opened Roles

  /** Boost tier of a guild. */
  datatype PremiumTier = NoTier | Tier1 | Tier2 | Tier3
  {
    function Code(): (c: int)
      ensures 0 <= c <= 3
    {
      match this
      case NoTier => 0
      case Tier1 => 1
      case Tier2 => 2
      case Tier3 => 3
    }

    static function FromCode(c: int): (r: Option<PremiumTier>)
      ensures r.Some? <==> 0 <= c <= 3
      ensures forall t: PremiumTier :: r == Some(t) <==> t.Code() == c
    {
      if c == 0 then Some(NoTier)
      else if c == 1 then Some(Tier1)
      else if c == 2 then Some(Tier2)
      else if c == 3 then Some(Tier3)
      else None
    }
  }

  /** NSFW level of a guild. */
  datatype GuildNSFWLevel = Default | Explicit | Safe | AgeRestricted
  {
    function Code(): (c: int)
      ensures 0 <= c <= 3
    {
      match this
      case Default => 0
      case Explicit => 1
      case Safe => 2
      case AgeRestricted => 3
    }

    static function FromCode(c: int): (r: Option<GuildNSFWLevel>)
      ensures r.Some? <==> 0 <= c <= 3
      ensures forall l: GuildNSFWLevel :: r == Some(l) <==> l.Code() == c
    {
      if c == 0 then Some(Default)
      else if c == 1 then Some(Explicit)
      else if c == 2 then Some(Safe)
      else if c == 3 then Some(AgeRestricted)
      else None
    }
  }

  /** Which members' media the guild scans. */
  datatype ExplicitContentFilterLevel = Disabled | MembersWithoutRoles | AllMembers
  {
    function Code(): (c: int)
      ensures 0 <= c <= 2
    {
      match this
      case Disabled => 0
      case MembersWithoutRoles => 1
      case AllMembers => 2
    }

    static function FromCode(c: int): (r: Option<ExplicitContentFilterLevel>)
      ensures r.Some? <==> 0 <= c <= 2
      ensures forall l: ExplicitContentFilterLevel :: r == Some(l) <==> l.Code() == c
    {
      if c == 0 then Some(Disabled)
      else if c == 1 then Some(MembersWithoutRoles)
      else if c == 2 then Some(AllMembers)
      else None
    }
  }

  /** Whether moderation actions require two-factor authentication. */
  datatype MFALevel = NoMFA | Elevated
  {
    function Code(): (c: int)
      ensures 0 <= c <= 1
    {
      match this
      case NoMFA => 0
      case Elevated => 1
    }

    static function FromCode(c: int): (r: Option<MFALevel>)
      ensures r.Some? <==> 0 <= c <= 1
      ensures forall l: MFALevel :: r == Some(l) <==> l.Code() == c
    {
      if c == 0 then Some(NoMFA)
      else if c == 1 then Some(Elevated)
      else None
    }
  }

  /** What an account must satisfy before it may talk in the guild. */
  datatype VerificationLevel = Unrestricted | Low | Medium | High | VeryHigh
  {
    function Code(): (c: int)
      ensures 0 <= c <= 4
    {
      match this
      case Unrestricted => 0
      case Low => 1
      case Medium => 2
      case High => 3
      case VeryHigh => 4
    }

    static function FromCode(c: int): (r: Option<VerificationLevel>)
      ensures r.Some? <==> 0 <= c <= 4
      ensures forall l: VerificationLevel :: r == Some(l) <==> l.Code() == c
    {
      if c == 0 then Some(Unrestricted)
      else if c == 1 then Some(Low)
      else if c == 2 then Some(Medium)
      else if c == 3 then Some(High)
      else if c == 4 then Some(VeryHigh)
      else None
    }
  }

  /** Which messages notify members by default. */
  datatype DefaultMessageNotificationLevel = AllMessages | OnlyMentions
  {
    function Code(): (c: int)
      ensures 0 <= c <= 1
    {
      match this
      case AllMessages => 0
      case OnlyMentions => 1
    }

    static function FromCode(c: int): (r: Option<DefaultMessageNotificationLevel>)
      ensures r.Some? <==> 0 <= c <= 1
      ensures forall l: DefaultMessageNotificationLevel :: r == Some(l) <==> l.Code() == c
    {
      if c == 0 then Some(AllMessages)
      else if c == 1 then Some(OnlyMentions)
      else None
    }
  }

  /**
   * The system channel's suppression flags. In the source this is an
   * `IntEnum`, so `FromCode` accepts the three single-bit values only;
   * a combination of flags is an integer read bit by bit (`Combine`,
   * `FlagSet`).
   */
  datatype SystemChannelFlags =
    | SuppressJoinNotifications
    | SuppressPremiumSubscriptions
    | SuppressGuildReminderNotifications
  {
    function Code(): (c: int)
      ensures c == 1 || c == 2 || c == 4
    {
      match this
      case SuppressJoinNotifications => 1
      case SuppressPremiumSubscriptions => 2
      case SuppressGuildReminderNotifications => 4
    }

    /** The flag's bit: exactly one of the three low bits. */
    function Bit(): (b: bv8)
      ensures b != 0 && b & (b - 1) == 0
      ensures b & 0xF8 == 0
      ensures b as int == Code()
    {
      match this
      case SuppressJoinNotifications => 1
      case SuppressPremiumSubscriptions => 2
      case SuppressGuildReminderNotifications => 4
    }

    static function FromCode(c: int): (r: Option<SystemChannelFlags>)
      ensures r.Some? <==> c == 1 || c == 2 || c == 4
      ensures forall f: SystemChannelFlags :: r == Some(f) <==> f.Code() == c
    {
      if c == 1 then Some(SuppressJoinNotifications)
      else if c == 2 then Some(SuppressPremiumSubscriptions)
      else if c == 4 then Some(SuppressGuildReminderNotifications)
      else None
    }
  }

  /** Distinct flags have disjoint bits. */
  lemma FlagBitsDisjoint(f: SystemChannelFlags, g: SystemChannelFlags)
    ensures f != g <==> f.Bit() & g.Bit() == 0
  {
  }

  /** The flags OR-ed together. */
  function Combine(fs: seq<SystemChannelFlags>): (v: bv8)
    ensures v & 0xF8 == 0
  {
    if fs == [] then 0 else Combine(fs[..|fs| - 1]) | fs[|fs| - 1].Bit()
  }

  /** The flags whose bit is set in `v`. */
  function FlagSet(v: bv8): (s: set<SystemChannelFlags>)
    ensures forall f: SystemChannelFlags :: f in s <==> v & f.Bit() != 0
  {
    (if v & 1 != 0 then {SuppressJoinNotifications} else {})
    + (if v & 2 != 0 then {SuppressPremiumSubscriptions} else {})
    + (if v & 4 != 0 then {SuppressGuildReminderNotifications} else {})
  }

  /** OR-ing any flags together and reading the bits back gives exactly those flags. */
  lemma {:induction false} FlagSetCombine(fs: seq<SystemChannelFlags>)
    ensures FlagSet(Combine(fs)) == set f | f in fs
  {
    if fs != [] {
      var init, last := fs[..|fs| - 1], fs[|fs| - 1];
      FlagSetCombine(init);
      assert fs == init + [last];
      forall f: SystemChannelFlags
        ensures f in FlagSet(Combine(fs)) <==> f in fs
      {
        FlagBitsDisjoint(f, last);
        assert (Combine(init) | last.Bit()) & f.Bit() != 0
           <==> Combine(init) & f.Bit() != 0 || last.Bit() & f.Bit() != 0;
        assert f in fs <==> f in init || f == last;
      }
    }
  }

  /** A flags value is determined by the set of flags it holds. */
  lemma CombineFlagSet(v: bv8, fs: seq<SystemChannelFlags>)
    requires v & 0xF8 == 0
    requires (set f | f in fs) == FlagSet(v)
    ensures Combine(fs) == v
  {
    var w := Combine(fs);
    FlagSetCombine(fs);
    assert FlagSet(w) == FlagSet(v);
    assert SuppressJoinNotifications in FlagSet(w) <==> SuppressJoinNotifications in FlagSet(v);
    assert SuppressPremiumSubscriptions in FlagSet(w) <==> SuppressPremiumSubscriptions in FlagSet(v);
    assert SuppressGuildReminderNotifications in FlagSet(w) <==> SuppressGuildReminderNotifications in FlagSet(v);
  }

  /**
   * As an `IntEnum`, `SystemChannelFlags` has no member for 0 (no flag set)
   * nor for a combination such as 3, although both are values the bit field
   * can carry; `FlagSet` reads them.
   */
  lemma FlagCombinationsHaveNoMember()
    ensures SystemChannelFlags.FromCode(0) == None
    ensures SystemChannelFlags.FromCode(Combine([SuppressJoinNotifications, SuppressPremiumSubscriptions]) as int) == None
    ensures FlagSet(0) == {}
    ensures FlagSet(Combine([SuppressJoinNotifications, SuppressPremiumSubscriptions]))
         == {SuppressJoinNotifications, SuppressPremiumSubscriptions}
  {
  }

  /** Why a guild payload is refused. */
  datatype GuildError =
    | UnavailableGuildError(guildId: Value)  // the guild is down because of an outage
    | KeyError(key: string)                  // the error message reads `data["id"]`, which is absent
    | NameError(name: string)                // a name that is not bound when the code runs

  /**
   * A guild, reduced to the fields the gateway code reads or writes. The
   * gateway's middleware replaces `roles` in place on the cached object.
   */
  class Guild {
    var id: Snowflake
    var roles: seq<Role>
    var unavailable: bool

    /** Guilds are available unless the payload says otherwise. */
    constructor (id: Snowflake, roles: seq<Role>, unavailable: bool := false)
      ensures this.id == id && this.roles == roles && this.unavailable == unavailable
    {
      this.id := id;
      this.roles := roles;
      this.unavailable := unavailable;
    }

    /**
     * `Guild.from_dict` as intended, with `UnavailableGuildError` imported at
     * run time: refuse a payload whose `unavailable` value is truthy (a
     * missing key counts as `False`); otherwise hand the payload to the
     * generic object decoder, here the parameter `decode`. The error message
     * reads `data["id"]`, so a refused payload without an id raises `KeyError`.
     */
    static function FromDict(data: Dict, decode: Dict -> Guild): (r: Result<Guild, GuildError>)
      ensures r.Failure? <==> Truthy(Get(data, "unavailable", Bool(false)))
      ensures r.Failure? && "id" in data ==> r.error == UnavailableGuildError(data["id"])
      ensures r.Failure? && "id" !in data ==> r.error == KeyError("id")
      ensures r.Success? ==> r.value == decode(data)
    {
      if Truthy(Get(data, "unavailable", Bool(false))) then
        if "id" in data then Failure(UnavailableGuildError(data["id"])) else Failure(KeyError("id"))
      else
        Success(decode(data))
    }

    /**
     * `Guild.from_dict` as written: `UnavailableGuildError` is imported only
     * for type checking, so the name is unbound at run time, and looking it
     * up fails before the message (and its `data["id"]`) is evaluated.
     */
    static function FromDictAsWritten(data: Dict, decode: Dict -> Guild): (r: Result<Guild, GuildError>)
      ensures r.Failure? <==> Truthy(Get(data, "unavailable", Bool(false)))
      ensures r.Failure? ==> r.error == NameError("UnavailableGuildError")
      ensures r.Success? ==> r.value == decode(data)
    {
      if Truthy(Get(data, "unavailable", Bool(false))) then
        Failure(NameError("UnavailableGuildError"))
      else
        Success(decode(data))
    }
  }

  /**
   * As written, a refused payload never reports `UnavailableGuildError`: the
   * payload `{"unavailable": true, "id": "1"}` ends in `NameError` where the
   * intended decoder reports guild "1" as unavailable. Both refuse the same
   * payloads and accept the others alike.
   */
  lemma FromDictAsWrittenRaisesNameError(data: Dict, decode: Dict -> Guild)
    ensures Guild.FromDictAsWritten(data, decode).Failure? <==> Guild.FromDict(data, decode).Failure?
    ensures Guild.FromDictAsWritten(data, decode).Success? ==>
              Guild.FromDictAsWritten(data, decode) == Guild.FromDict(data, decode)
    ensures Guild.FromDictAsWritten(data, decode).Failure? ==>
              !Guild.FromDictAsWritten(data, decode).error.UnavailableGuildError?
    ensures data == map["unavailable" := Bool(true), "id" := Str("1")] ==>
              Guild.FromDictAsWritten(data, decode) == Failure(NameError("UnavailableGuildError"))
              && Guild.FromDict(data, decode) == Failure(UnavailableGuildError(Str("1")))
  {
  }

  /** A payload without an `unavailable` key, or with a false one, is decoded by delegation. */
  lemma FromDictAvailable(data: Dict, decode: Dict -> Guild)
    requires "unavailable" !in data || !Truthy(data["unavailable"])
    ensures Guild.FromDict(data, decode) == Success(decode(data))
  {
  }

  /** A payload marked unavailable is always refused, whatever the decoder does. */
  lemma FromDictUnavailable(data: Dict, decode: Dict -> Guild)
    requires "unavailable" in data && Truthy(data["unavailable"])
    ensures Guild.FromDict(data, decode).Failure?
  {
  }
}
