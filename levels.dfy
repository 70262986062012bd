/** The experience and level system (experimental/levels.py): per-user XP
    records, per-guild settings with their defaults, the level loop of
    `add_xp`, the gates of `on_message` and the settings commands. The two
    Mongo collections are maps keyed by user id and guild id; the clock and
    `random.randint` are parameters. */
module Levels {
  import opened PyText

  /** A user's record: `xp`, `level` and `last_xp_time` in seconds. */
  datatype UserData = UserData(xp: int, level: nat, lastXpTime: int)

  /** A guild's settings document. `RangeOnly` is the document an upsert of
      `xp_range` alone creates for a guild that had none. */
  datatype Settings =
    | Full(xpRange: (int, int), levelUpMessage: string, enabled: bool, cooldown: int,
           ignoredChannels: seq<string>, levelRoles: map<string, int>)
    | RangeOnly(range: (int, int))

  const DefaultMessage := "Поздравляем {user}, вы достигли уровня {level}!"

  /** The settings `get_guild_settings` inserts for a new guild. */
  const DefaultSettings: Settings := Full((10, 50), DefaultMessage, true, 60, [], map[])

  /** A level-up message scheduled by `add_xp`. */
  datatype LevelUp = LevelUp(userId: int, guildId: int, level: nat)

  datatype LevelsState = LevelsState(users: map<int, UserData>, settings: map<int, Settings>, notices: seq<LevelUp>)

  // ------------------------------------------------------------ defaults

  /** `get_guild_settings`: the stored document, or the defaults, stored. */
  function GuildSettings(st: LevelsState, gid: int): (r: (Settings, LevelsState))
    ensures gid in r.1.settings && r.1.settings[gid] == r.0
    ensures gid !in st.settings ==> r.0 == DefaultSettings
    ensures gid in st.settings ==> r.1 == st && r.0 == st.settings[gid]
    ensures r.1.users == st.users && r.1.notices == st.notices
    ensures forall g :: g in st.settings ==> g in r.1.settings && r.1.settings[g] == st.settings[g]
  {
    if gid in st.settings then (st.settings[gid], st)
    else (DefaultSettings, st.(settings := st.settings[gid := DefaultSettings]))
  }

  /** `get_user_data`: the stored record, or a new one at xp 0, level 0,
      stamped now, stored. */
  function UserDataOf(st: LevelsState, uid: int, now: int): (r: (UserData, LevelsState))
    ensures uid in r.1.users && r.1.users[uid] == r.0
    ensures uid !in st.users ==> r.0 == UserData(0, 0, now)
    ensures uid in st.users ==> r.1 == st && r.0 == st.users[uid]
    ensures r.1.settings == st.settings && r.1.notices == st.notices
  {
    if uid in st.users then (st.users[uid], st)
    else (UserData(0, 0, now), st.(users := st.users[uid := UserData(0, 0, now)]))
  }

  // -------------------------------------------------------------- levels

  /** The cumulative XP needed to leave `level`: `(L + 1) * 100 + L * 50`. */
  function Threshold(level: int): (t: int)
    ensures t == 150 * level + 100
  {
    (level + 1) * 100 + level * 50
  }

  /** The level `add_xp` reaches from `level` with `xp` in total: the least
      level at or above `level` whose threshold `xp` does not reach. */
  function LevelFor(xp: int, level: nat): (r: nat)
    ensures r >= level
    ensures xp < Threshold(r)
    ensures forall l :: level <= l < r ==> Threshold(l) <= xp
    decreases xp - Threshold(level) + 150
  {
    if xp >= Threshold(level) then LevelFor(xp, level + 1) else level
  }

  /** A level is gained exactly when the total reaches the threshold of the
      current level. */
  lemma LevelUpIff(xp: int, level: nat)
    ensures LevelFor(xp, level) > level <==> xp >= Threshold(level)
  {
  }

  /** `LevelFor` is determined by its contract: any level at or above the
      start that the total does not leave, with every level below it left,
      is the one `add_xp` reaches. */
  lemma {:induction false} LevelForUnique(xp: int, level: nat, l: nat)
    requires level <= l && xp < Threshold(l)
    requires forall k :: level <= k < l ==> Threshold(k) <= xp
    ensures LevelFor(xp, level) == l
  {
    var r := LevelFor(xp, level);
    assert xp < Threshold(r) && xp < Threshold(l);
  }

  /** Starting the loop from any level already passed gives the same result
      as starting from zero: a user whose stored level matches their XP keeps
      a level that matches it after any award that is not negative. */
  lemma AddXpMatchesFromScratch(oldXp: int, award: int)
    requires award >= 0
    ensures LevelFor(oldXp + award, LevelFor(oldXp, 0)) == LevelFor(oldXp + award, 0)
  {
    var x := oldXp + award;
    var l0 := LevelFor(oldXp, 0);
    var l := LevelFor(x, l0);
    forall k | 0 <= k < l ensures Threshold(k) <= x {
      if k < l0 {
        assert Threshold(k) <= oldXp;
      }
    }
    LevelForUnique(x, 0, l);
  }

  /** More XP never means a lower level. */
  lemma LevelForMonotone(x: int, y: int, level: nat)
    requires x <= y
    ensures LevelFor(x, level) <= LevelFor(y, level)
  {
    var rx, ry := LevelFor(x, level), LevelFor(y, level);
    assert x <= y < Threshold(ry) && x < Threshold(rx);
  }

  /** The first thresholds: 100 XP for level 1, 250 for level 2, 400 for 3. */
  lemma FirstLevels()
    ensures LevelFor(99, 0) == 0 && LevelFor(100, 0) == 1
    ensures LevelFor(249, 0) == 1 && LevelFor(250, 0) == 2 && LevelFor(400, 0) == 3
  {
    LevelForUnique(100, 0, 1);
    LevelForUnique(249, 0, 1);
    LevelForUnique(250, 0, 2);
    LevelForUnique(400, 0, 3);
  }

  /** `add_xp`: the award is added, the level loop runs from the stored
      level, the record is stamped now, and a level-up is scheduled when the
      level rose. */
  function AddXpStep(st: LevelsState, uid: int, gid: int, xp: int, now: int): (r: LevelsState)
    ensures uid in r.users
    ensures var u := UserDataOf(st, uid, now).0;
      && r.users[uid].xp == u.xp + xp
      && r.users[uid].level == LevelFor(u.xp + xp, u.level)
      && r.users[uid].level >= u.level
      && r.users[uid].xp < Threshold(r.users[uid].level)
      && r.users[uid].lastXpTime == now
      && (r.notices == st.notices + [LevelUp(uid, gid, r.users[uid].level)] <==> r.users[uid].level > u.level)
      && (r.notices == st.notices <==> r.users[uid].level == u.level)
    ensures r.settings == st.settings
    ensures forall v :: v in st.users && v != uid ==> v in r.users && r.users[v] == st.users[v]
  {
    var (u, st1) := UserDataOf(st, uid, now);
    var newXp := u.xp + xp;
    var newLevel := LevelFor(newXp, u.level);
    var notices := if newLevel > u.level then st1.notices + [LevelUp(uid, gid, newLevel)] else st1.notices;
    st1.(users := st1.users[uid := UserData(newXp, newLevel, now)], notices := notices)
  }

  // ------------------------------------------------------------ messages

  /** `random.randint(lo, hi)` driven by `seed`: `None` for the
      `ValueError` of an empty range. Every value of the range is the result
      for some seed. */
  function RandInt(lo: int, hi: int, seed: nat): (r: Option<int>)
    ensures r.Some? <==> lo <= hi
    ensures r.Some? ==> lo <= r.value <= hi
  {
    if lo > hi then None else Some(lo + seed % (hi - lo + 1))
  }

  lemma RandIntReachesAll(lo: int, hi: int, x: int)
    requires lo <= x <= hi
    ensures RandInt(lo, hi, x - lo) == Some(x)
  {
  }

  datatype MessageResult =
    | NotCounted       // a bot, or a message outside a guild
    | KeyError         // the settings document lacks a field
    | LevelsDisabled
    | IgnoredChannel
    | CoolingDown
    | RangeError       // `randint` on an empty range
    | Awarded(xp: int)

  /** `on_message`. */
  function OnMessageStep(st: LevelsState, authorIsBot: bool, guild: Option<int>, channelId: int,
                         uid: int, now: int, seed: nat): (r: (MessageResult, LevelsState))
    ensures authorIsBot || guild.None? ==> r == (NotCounted, st)
    ensures r.0.Awarded? ==> !authorIsBot && guild.Some? && guild.value in r.1.settings
    ensures r.0.Awarded? ==>
      var s := r.1.settings[guild.value];
      && s.Full? && s.enabled && IntToString(channelId) !in s.ignoredChannels
      && s.xpRange.0 <= r.0.xp <= s.xpRange.1
    ensures r.0.Awarded? ==>
      (&& uid in r.1.users
       && r.1.users[uid].xp == UserDataOf(st, uid, now).0.xp + r.0.xp
       && guild.Some? && guild.value in r.1.settings && r.1.settings[guild.value].Full?
       && now - UserDataOf(st, uid, now).0.lastXpTime >= r.1.settings[guild.value].cooldown)
    ensures !r.0.Awarded? ==> forall v :: v in st.users ==> v in r.1.users && r.1.users[v] == st.users[v]
    ensures r.1.notices == st.notices || r.0.Awarded?
  {
    if authorIsBot || guild.None? then (NotCounted, st)
    else
      var gid := guild.value;
      var (s, st1) := GuildSettings(st, gid);
      if s.RangeOnly? then (KeyError, st1)
      else if !s.enabled then (LevelsDisabled, st1)
      else if IntToString(channelId) in s.ignoredChannels then (IgnoredChannel, st1)
      else
        var (u, st2) := UserDataOf(st1, uid, now);
        if now - u.lastXpTime < s.cooldown then (CoolingDown, st2)
        else match RandInt(s.xpRange.0, s.xpRange.1, seed)
          case None => (RangeError, st2)
          case Some(xp) => (Awarded(xp), AddXpStep(st2, uid, gid, xp, now))
  }

  /** The gates of `on_message` a guild message from a non-bot passes before
      the draw: a full settings document, levels enabled, the channel not
      ignored, and the cooldown over since the author's last award. */
  predicate PassesGates(s: Settings, channelId: int, u: UserData, now: int) {
    s.Full? && s.enabled && IntToString(channelId) !in s.ignoredChannels
    && now - u.lastXpTime >= s.cooldown
  }

  /** Each outcome of `on_message` for a guild message from a non-bot,
      exactly in its case; with every gate passed and a non-empty range the
      drawn XP is awarded through `add_xp`. */
  lemma OnMessageOutcome(st: LevelsState, gid: int, channelId: int, uid: int, now: int, seed: nat)
    ensures var (s, st1) := GuildSettings(st, gid);
      var (u, st2) := UserDataOf(st1, uid, now);
      var r := OnMessageStep(st, false, Some(gid), channelId, uid, now, seed);
      && (r.0 == KeyError <==> s.RangeOnly?)
      && (r.0 == LevelsDisabled <==> s.Full? && !s.enabled)
      && (r.0 == IgnoredChannel <==> s.Full? && s.enabled && IntToString(channelId) in s.ignoredChannels)
      && (r.0 == CoolingDown <==>
            s.Full? && s.enabled && IntToString(channelId) !in s.ignoredChannels && now - u.lastXpTime < s.cooldown)
      && (r.0 == RangeError <==> PassesGates(s, channelId, u, now) && s.xpRange.0 > s.xpRange.1)
      && (r.0.Awarded? <==> PassesGates(s, channelId, u, now) && s.xpRange.0 <= s.xpRange.1)
      && (PassesGates(s, channelId, u, now) && s.xpRange.0 <= s.xpRange.1 ==>
            var x := RandInt(s.xpRange.0, s.xpRange.1, seed).value;
            r == (Awarded(x), AddXpStep(st2, uid, gid, x, now)))
  {
  }

  /** A user without a record is stamped with the time of their first
      message, so that message never earns XP while the cooldown is
      positive. */
  lemma FirstMessageEarnsNothing(st: LevelsState, channelId: int, uid: int, gid: int, now: int, seed: nat)
    requires uid !in st.users
    requires gid in st.settings ==> st.settings[gid].Full? && st.settings[gid].cooldown > 0
    ensures !OnMessageStep(st, false, Some(gid), channelId, uid, now, seed).0.Awarded?
  {
  }

  // ------------------------------------------------------------ commands

  /** What a settings command replies. */
  datatype CommandResult = SettingsKeyError | Changed | Unchanged

  /** `set_xp_range_command` as written: `$set` of `xp_range` with upsert,
      so a guild without settings gets a document holding the range only. */
  function SetXpRangeAsWritten(st: LevelsState, gid: int, lo: int, hi: int): (r: LevelsState)
    ensures gid in r.settings && r.settings[gid].Full? <==> gid in st.settings && st.settings[gid].Full?
    ensures r.users == st.users && r.notices == st.notices
  {
    var doc := if gid in st.settings && st.settings[gid].Full? then st.settings[gid].(xpRange := (lo, hi))
               else RangeOnly((lo, hi));
    st.(settings := st.settings[gid := doc])
  }

  /** `set_xp_range_command` as evidently intended: the range is set on the
      guild's settings, the defaults when it had none. */
  function SetXpRange(st: LevelsState, gid: int, lo: int, hi: int): (r: LevelsState)
    ensures gid in r.settings
    ensures r.settings[gid].Full? ==> r.settings[gid].xpRange == (lo, hi)
    ensures gid !in st.settings ==> r.settings[gid] == DefaultSettings.(xpRange := (lo, hi))
    ensures Healthy(st) ==> Healthy(r)
    ensures r.users == st.users && r.notices == st.notices
  {
    var (s, st1) := GuildSettings(st, gid);
    var doc := if s.Full? then s.(xpRange := (lo, hi)) else RangeOnly((lo, hi));
    st1.(settings := st1.settings[gid := doc])
  }

  /** Every stored settings document has all its fields. */
  predicate Healthy(st: LevelsState) {
    forall g :: g in st.settings ==> st.settings[g].Full?
  }

  /** `toggle_levels_command`: flips `levels_enabled`. */
  function ToggleStep(st: LevelsState, gid: int): (r: (CommandResult, LevelsState))
    ensures r.0 == SettingsKeyError <==> gid in st.settings && st.settings[gid].RangeOnly?
    ensures r.0 == Changed ==>
      (&& gid in r.1.settings && r.1.settings[gid].Full?
       && r.1.settings[gid].enabled == !GuildSettings(st, gid).0.enabled
       && r.1.settings[gid] == GuildSettings(st, gid).0.(enabled := r.1.settings[gid].enabled))
    ensures r.0 != Unchanged
    ensures r.1.users == st.users && (Healthy(st) ==> Healthy(r.1))
  {
    var (s, st1) := GuildSettings(st, gid);
    if s.RangeOnly? then (SettingsKeyError, st1)
    else (Changed, st1.(settings := st1.settings[gid := s.(enabled := !s.enabled)]))
  }

  /** Toggling twice restores the setting. */
  lemma ToggleTwice(st: LevelsState, gid: int)
    requires gid in st.settings && st.settings[gid].Full?
    ensures ToggleStep(ToggleStep(st, gid).1, gid).1 == st
  {
    var s := st.settings[gid];
    assert ToggleStep(st, gid).1.settings[gid := s] == st.settings;
  }

  /** `set_ignore_channel_command`: the channel id, as a string, is added
      when it is not ignored yet. */
  function SetIgnoreChannelStep(st: LevelsState, gid: int, channelId: int): (r: (CommandResult, LevelsState))
    ensures r.0 == SettingsKeyError <==> gid in st.settings && st.settings[gid].RangeOnly?
    ensures r.0 != SettingsKeyError ==>
      (&& gid in r.1.settings && r.1.settings[gid].Full?
       && r.1.settings[gid].ignoredChannels
          == AddIfAbsent(GuildSettings(st, gid).0.ignoredChannels, IntToString(channelId))
       && (r.0 == Changed <==> IntToString(channelId) !in GuildSettings(st, gid).0.ignoredChannels))
    ensures r.1.users == st.users && (Healthy(st) ==> Healthy(r.1))
  {
    var (s, st1) := GuildSettings(st, gid);
    if s.RangeOnly? then (SettingsKeyError, st1)
    else
      var ch := IntToString(channelId);
      if ch !in s.ignoredChannels then
        (Changed, st1.(settings := st1.settings[gid := s.(ignoredChannels := s.ignoredChannels + [ch])]))
      else (Unchanged, st1)
  }

  /** The ignored channels never hold a duplicate. */
  lemma IgnoreKeepsNoDup(st: LevelsState, gid: int, channelId: int)
    requires gid in st.settings ==> st.settings[gid].Full? && NoDup(st.settings[gid].ignoredChannels)
    ensures var r := SetIgnoreChannelStep(st, gid, channelId).1;
      r.settings[gid].Full? && NoDup(r.settings[gid].ignoredChannels)
  {
    var s := GuildSettings(st, gid).0;
    assert NoDup(s.ignoredChannels);
  }

  /** A message in a channel just ignored earns nothing. */
  lemma IgnoredChannelEarnsNothing(st: LevelsState, gid: int, channelId: int, uid: int, now: int, seed: nat)
    requires gid in st.settings ==> st.settings[gid].Full?
    ensures var st' := SetIgnoreChannelStep(st, gid, channelId).1;
      !OnMessageStep(st', false, Some(gid), channelId, uid, now, seed).0.Awarded?
  {
    var st' := SetIgnoreChannelStep(st, gid, channelId).1;
    assert IntToString(channelId) in st'.settings[gid].ignoredChannels;
  }

  /** `set_level_role_command`: the role id stored under the level as a string. */
  function SetLevelRoleStep(st: LevelsState, gid: int, level: int, roleId: int): (r: (CommandResult, LevelsState))
    ensures r.0 == SettingsKeyError <==> gid in st.settings && st.settings[gid].RangeOnly?
    ensures r.0 != SettingsKeyError ==>
      (&& r.0 == Changed && gid in r.1.settings && r.1.settings[gid].Full?
       && r.1.settings[gid].levelRoles == GuildSettings(st, gid).0.levelRoles[IntToString(level) := roleId])
    ensures r.1.users == st.users && (Healthy(st) ==> Healthy(r.1))
  {
    var (s, st1) := GuildSettings(st, gid);
    if s.RangeOnly? then (SettingsKeyError, st1)
    else (Changed, st1.(settings := st1.settings[gid := s.(levelRoles := s.levelRoles[IntToString(level) := roleId])]))
  }

  /** The role `send_level_up_message` gives for a level: the id stored
      under the level, when it is not 0 (a falsy id gives none). */
  function RoleForLevel(s: Settings, level: nat): (r: Option<int>)
    requires s.Full?
    ensures r.Some? <==> IntToString(level) in s.levelRoles && s.levelRoles[IntToString(level)] != 0
  {
    var key := IntToString(level);
    if key in s.levelRoles && s.levelRoles[key] != 0 then Some(s.levelRoles[key]) else None
  }

  /** After `setlevelrole` a level-up to that level gives that role. */
  lemma LevelRoleGiven(st: LevelsState, gid: int, level: nat, roleId: int)
    requires roleId != 0 && (gid in st.settings ==> st.settings[gid].Full?)
    ensures var r := SetLevelRoleStep(st, gid, level, roleId).1;
      RoleForLevel(r.settings[gid], level) == Some(roleId)
  {
  }

  /** `reset_levels_command`: every user record is deleted. */
  function ResetLevelsStep(st: LevelsState): (r: LevelsState)
    ensures r.users == map[] && r.settings == st.settings && r.notices == st.notices
  {
    st.(users := map[])
  }

  /** `level_command`: the caller's XP and level, creating their record. */
  function LevelQuery(st: LevelsState, uid: int, now: int): (r: ((int, nat), LevelsState))
    ensures uid in st.users ==> r.0 == (st.users[uid].xp, st.users[uid].level) && r.1 == st
    ensures uid !in st.users ==> r.0 == (0, 0)
  {
    var (u, st1) := UserDataOf(st, uid, now);
    ((u.xp, u.level), st1)
  }

  // ------------------------------------------------------------ finding

  /** The range set first breaks the guild: the next message raises. */
  lemma RangeFirstBreaksMessages(st: LevelsState, gid: int, lo: int, hi: int,
                                 channelId: int, uid: int, now: int, seed: nat)
    requires gid !in st.settings
    ensures var st' := SetXpRangeAsWritten(st, gid, lo, hi);
      && OnMessageStep(st', false, Some(gid), channelId, uid, now, seed).0 == KeyError
      && ToggleStep(st', gid).0 == SettingsKeyError
  {
  }

  /** With the range set on the settings no command or message raises. */
  lemma HealthyNeverRaises(st: LevelsState, gid: int, channelId: int, uid: int, now: int, seed: nat)
    requires Healthy(st)
    ensures OnMessageStep(st, false, Some(gid), channelId, uid, now, seed).0 != KeyError
    ensures ToggleStep(st, gid).0 != SettingsKeyError
    ensures SetIgnoreChannelStep(st, gid, channelId).0 != SettingsKeyError
    ensures SetLevelRoleStep(st, gid, 0, 0).0 != SettingsKeyError
  {
  }

  // ----------------------------------------------------------------- cog

  class LevelsCog {
    var users: map<int, UserData>
    var settings: map<int, Settings>
    var notices: seq<LevelUp>

    function State(): LevelsState
      reads this
    {
      LevelsState(users, settings, notices)
    }

    constructor(users: map<int, UserData>, settings: map<int, Settings>)
      ensures State() == LevelsState(users, settings, [])
    {
      this.users := users;
      this.settings := settings;
      notices := [];
    }

    method GetGuildSettings(gid: int) returns (s: Settings)
      modifies this
      ensures (s, State()) == GuildSettings(old(State()), gid)
    {
      if gid !in settings {
        settings := settings[gid := DefaultSettings];
      }
      s := settings[gid];
    }

    method GetUserData(uid: int, now: int) returns (u: UserData)
      modifies this
      ensures (u, State()) == UserDataOf(old(State()), uid, now)
    {
      if uid !in users {
        users := users[uid := UserData(0, 0, now)];
      }
      u := users[uid];
    }

    /** `add_xp`: the level loop. */
    method AddXp(uid: int, gid: int, xp: int, now: int)
      modifies this
      ensures State() == AddXpStep(old(State()), uid, gid, xp, now)
    {
      var u := GetUserData(uid, now);
      var newXp := u.xp + xp;
      var newLevel := u.level;
      var next := (newLevel + 1) * 100 + newLevel * 50;
      while newXp >= next
        invariant newLevel >= u.level && next == Threshold(newLevel)
        invariant LevelFor(newXp, newLevel) == LevelFor(newXp, u.level)
        decreases newXp - next
      {
        newLevel := newLevel + 1;
        next := (newLevel + 1) * 100 + newLevel * 50;
      }
      users := users[uid := UserData(newXp, newLevel, now)];
      if newLevel > u.level {
        notices := notices + [LevelUp(uid, gid, newLevel)];
      }
    }

    /** `on_message`. */
    method OnMessage(authorIsBot: bool, guild: Option<int>, channelId: int, uid: int, now: int, seed: nat)
      returns (result: MessageResult)
      modifies this
      ensures (result, State()) == OnMessageStep(old(State()), authorIsBot, guild, channelId, uid, now, seed)
    {
      if authorIsBot || guild.None? {
        return NotCounted;
      }
      var s := GetGuildSettings(guild.value);
      if s.RangeOnly? {
        return KeyError;
      }
      if !s.enabled {
        return LevelsDisabled;
      }
      if IntToString(channelId) in s.ignoredChannels {
        return IgnoredChannel;
      }
      var u := GetUserData(uid, now);
      if now - u.lastXpTime < s.cooldown {
        return CoolingDown;
      }
      var xp := RandInt(s.xpRange.0, s.xpRange.1, seed);
      if xp.None? {
        return RangeError;
      }
      AddXp(uid, guild.value, xp.value, now);
      result := Awarded(xp.value);
    }

    method SetXpRangeCommand(gid: int, lo: int, hi: int)
      modifies this
      ensures State() == SetXpRange(old(State()), gid, lo, hi)
    {
      var s := GetGuildSettings(gid);
      settings := settings[gid := if s.Full? then s.(xpRange := (lo, hi)) else RangeOnly((lo, hi))];
    }

    method SetLevelRole(gid: int, level: int, roleId: int) returns (result: CommandResult)
      modifies this
      ensures (result, State()) == SetLevelRoleStep(old(State()), gid, level, roleId)
    {
      var s := GetGuildSettings(gid);
      if s.RangeOnly? {
        return SettingsKeyError;
      }
      settings := settings[gid := s.(levelRoles := s.levelRoles[IntToString(level) := roleId])];
      result := Changed;
    }

    method ResetLevels()
      modifies this
      ensures State() == ResetLevelsStep(old(State()))
    {
      users := map[];
    }

    method ToggleLevels(gid: int) returns (result: CommandResult)
      modifies this
      ensures (result, State()) == ToggleStep(old(State()), gid)
    {
      var s := GetGuildSettings(gid);
      if s.RangeOnly? {
        return SettingsKeyError;
      }
      settings := settings[gid := s.(enabled := !s.enabled)];
      result := Changed;
    }

    method SetIgnoreChannel(gid: int, channelId: int) returns (result: CommandResult)
      modifies this
      ensures (result, State()) == SetIgnoreChannelStep(old(State()), gid, channelId)
    {
      var s := GetGuildSettings(gid);
      if s.RangeOnly? {
        return SettingsKeyError;
      }
      var ch := IntToString(channelId);
      if ch !in s.ignoredChannels {
        settings := settings[gid := s.(ignoredChannels := s.ignoredChannels + [ch])];
        result := Changed;
      } else {
        result := Unchanged;
      }
    }

    method Level(uid: int, now: int) returns (xp: int, level: nat)
      modifies this
      ensures ((xp, level), State()) == LevelQuery(old(State()), uid, now)
    {
      var u := GetUserData(uid, now);
      xp, level := u.xp, u.level;
    }
  }
}
