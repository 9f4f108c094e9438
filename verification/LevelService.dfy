/**
 * The chat-XP table: every message counts, at most one XP award per minute, the level is the
 * integer part of a tenth of the square root of the XP, and the leaderboard ranks users by XP.
 * The persisted file is the `data` field of a `LevelStore`; the clock and the random roll are
 * parameters.
 */
module LevelService {
  import opened Wrappers
  import opened Sorting
  import opened OrderedDict
  import Seqs

  const XpMin: nat := 15
  const XpMax: nat := 25
  /** Milliseconds between two awards. */
  const XpCooldown: int := 60000

  // ---------------------------------------------------------------------------
  // Levels
  // ---------------------------------------------------------------------------

  /** `xpForLevel`: the XP a level starts at. */
  function XpForLevel(level: int): nat {
    (level * 10) * (level * 10)
  }

  /** `xpForNextLevel`. */
  function XpForNextLevel(level: nat): (r: nat)
    ensures r > XpForLevel(level)
  {
    XpForLevelMonotone(level, level + 1);
    XpForLevel(level + 1)
  }

  /** The thresholds grow with the level. */
  lemma XpForLevelMonotone(a: int, b: int)
    requires 0 <= a && 0 <= b
    ensures a <= b ==> XpForLevel(a) <= XpForLevel(b)
    ensures a < b ==> XpForLevel(a) < XpForLevel(b)
  {
    var x, y := a * 10, b * 10;
    if a < b {
      assert x * x <= x * y < y * y;
    } else if a == b {
    }
  }

  /** Counts levels up from `level` while the next threshold is still reached. */
  function LevelFrom(xp: nat, level: nat): (r: nat)
    requires XpForLevel(level) <= xp
    ensures level <= r
    ensures XpForLevel(r) <= xp < XpForLevel(r + 1)
    decreases xp - XpForLevel(level)
  {
    XpForLevelMonotone(level, level + 1);
    if XpForLevel(level + 1) <= xp then LevelFrom(xp, level + 1) else level
  }

  /** `calculateLevel`: `floor(0.1 * sqrt(xp))`, the level whose threshold band holds `xp`. */
  function CalculateLevel(xp: nat): (r: nat)
    ensures XpForLevel(r) <= xp < XpForNextLevel(r)
  {
    LevelFrom(xp, 0)
  }

  /** The band is unique: any level whose band holds `xp` is the calculated one. */
  lemma LevelIsUnique(xp: nat, level: nat)
    requires XpForLevel(level) <= xp < XpForLevel(level + 1)
    ensures CalculateLevel(xp) == level
  {
    var c := CalculateLevel(xp);
    XpForLevelMonotone(level + 1, c);
    XpForLevelMonotone(c + 1, level);
  }

  /** Exactly at a threshold the player has that level. */
  lemma LevelAtThreshold(level: nat)
    ensures CalculateLevel(XpForLevel(level)) == level
  {
    XpForLevelMonotone(level, level + 1);
    LevelIsUnique(XpForLevel(level), level);
  }

  /** More XP never means a lower level. */
  lemma CalculateLevelMonotone(a: nat, b: nat)
    requires a <= b
    ensures CalculateLevel(a) <= CalculateLevel(b)
  {
    var ca, cb := CalculateLevel(a), CalculateLevel(b);
    XpForLevelMonotone(cb + 1, ca);
  }

  // ---------------------------------------------------------------------------
  // Awards
  // ---------------------------------------------------------------------------

  datatype UserLevel = UserLevel(xp: nat, level: nat, messageCount: nat, lastXpTime: int)

  /** The record a user gets on their first message, and what `getUserData` shows for a stranger. */
  const NewUser: UserLevel := UserLevel(0, 0, 0, 0)

  /** The shape `addXp` returns: either the cooldown answer or the award. */
  datatype XpOutcome =
    | Cooldown(userData: UserLevel)
    | Awarded(leveledUp: bool, newLevel: nat, xpGain: nat, userData: UserLevel)

  /** `Math.floor(random * 11) + 15` for a roll `0 <= random < 1`. */
  function XpGain(random: real): (r: nat)
    requires 0.0 <= random < 1.0
    ensures XpMin <= r <= XpMax
  {
    (random * 11.0).Floor + XpMin
  }

  /** Every gain from 15 to 25 has a roll that produces it. */
  lemma EveryGainReachable(gain: nat)
    requires XpMin <= gain <= XpMax
    ensures XpGain(((gain - XpMin) as real + 0.5) / 11.0) == gain
  {
    var roll := ((gain - XpMin) as real + 0.5) / 11.0;
    assert roll * 11.0 == (gain - XpMin) as real + 0.5;
  }

  /** What one message does to a user's record, and what `addXp` answers. */
  function Award(u: UserLevel, now: int, random: real): (r: XpOutcome)
    requires 0.0 <= random < 1.0
    ensures r.userData.messageCount == u.messageCount + 1
    ensures r.Cooldown? <==> now - u.lastXpTime < XpCooldown
    ensures r.Cooldown? ==> r.userData == u.(messageCount := u.messageCount + 1)
    ensures r.Awarded? ==>
      && XpMin <= r.xpGain <= XpMax
      && r.userData.xp == u.xp + r.xpGain
      && r.userData.lastXpTime == now
      && r.newLevel == r.userData.level == CalculateLevel(r.userData.xp)
      && (r.leveledUp <==> r.newLevel > u.level)
  {
    var counted := u.(messageCount := u.messageCount + 1);
    if now - u.lastXpTime < XpCooldown then Cooldown(counted)
    else
      var gain := XpGain(random);
      var xp := u.xp + gain;
      var level := CalculateLevel(xp);
      Awarded(level > u.level, level, gain, counted.(xp := xp, lastXpTime := now, level := level))
  }

  /** A record is consistent when its level is the one its XP gives. */
  predicate Consistent(u: UserLevel) {
    u.level == CalculateLevel(u.xp)
  }

  /**
   * An award keeps a consistent record consistent, never lowers the level, and reports a level-up
   * exactly when the new XP reaches the threshold of the next level.
   */
  lemma AwardKeepsLevels(u: UserLevel, now: int, random: real)
    requires 0.0 <= random < 1.0 && Consistent(u)
    ensures Consistent(Award(u, now, random).userData)
    ensures Award(u, now, random).userData.level >= u.level
    ensures Award(u, now, random).Awarded? ==>
      (Award(u, now, random).leveledUp <==> Award(u, now, random).userData.xp >= XpForNextLevel(u.level))
  {
    var r := Award(u, now, random);
    if r.Awarded? {
      CalculateLevelMonotone(u.xp, r.userData.xp);
      var c := r.newLevel;
      XpForLevelMonotone(u.level + 1, c);
      XpForLevelMonotone(c + 1, u.level + 1);
    }
  }

  /** Two messages less than a minute apart earn XP at most once. */
  lemma OneAwardPerCooldown(u: UserLevel, t1: int, t2: int, r1: real, r2: real)
    requires 0.0 <= r1 < 1.0 && 0.0 <= r2 < 1.0
    requires t1 <= t2 < t1 + XpCooldown
    requires Award(u, t1, r1).Awarded?
    ensures Award(Award(u, t1, r1).userData, t2, r2).Cooldown?
  {
  }

  // ---------------------------------------------------------------------------
  // The store
  // ---------------------------------------------------------------------------

  /** The levels file: guild id to the guild's users, in the order they first wrote. */
  class LevelStore {
    var data: map<string, Dict<UserLevel>>

    ghost predicate Valid()
      reads this
    {
      forall g :: g in data ==> OrderedDict.Valid(data[g])
    }

    constructor ()
      ensures data == map[] && Valid()
    {
      data := map[];
    }

    /** `data[guildId] || {}`. */
    function GuildUsers(guildId: string): (r: Dict<UserLevel>)
      reads this
      ensures Valid() ==> OrderedDict.Valid(r)
      ensures guildId !in data ==> r == []
    {
      if guildId in data then data[guildId] else []
    }

    /** `getUserData`: the stored record, or the new-user record. */
    function UserData(guildId: string, userId: string): (r: UserLevel)
      reads this
      ensures Get(GuildUsers(guildId), userId).Some? ==> r == Get(GuildUsers(guildId), userId).value
      ensures Get(GuildUsers(guildId), userId).None? ==> r == NewUser
    {
      Get(GuildUsers(guildId), userId).GetOr(NewUser)
    }

    /**
     * `addXp`: creates the guild and the user when absent, counts the message, and awards XP
     * unless the last award was less than a minute ago. Only this user's record changes.
     */
    method AddXp(guildId: string, userId: string, now: int, random: real) returns (r: XpOutcome)
      requires Valid() && 0.0 <= random < 1.0
      modifies this
      ensures Valid()
      ensures r == Award(old(UserData(guildId, userId)), now, random)
      ensures data == old(data)[guildId := Put(old(GuildUsers(guildId)), userId, r.userData)]
      ensures UserData(guildId, userId) == r.userData
    {
      var users := GuildUsers(guildId);
      var user := Get(users, userId).GetOr(NewUser);
      user := user.(messageCount := user.messageCount + 1);
      if now - user.lastXpTime < XpCooldown {
        data := data[guildId := Put(users, userId, user)];
        return Cooldown(user);
      }
      var xpGain := XpGain(random);
      user := user.(xp := user.xp + xpGain, lastXpTime := now);
      var newLevel := CalculateLevel(user.xp);
      var leveledUp := newLevel > user.level;
      user := user.(level := newLevel);
      data := data[guildId := Put(users, userId, user)];
      r := Awarded(leveledUp, newLevel, xpGain, user);
    }
  }

  /** AddXp leaves every other guild and every other user of the guild as it was. */
  lemma AddXpTouchesOneUser(
    before: map<string, Dict<UserLevel>>, after: map<string, Dict<UserLevel>>,
    guildId: string, userId: string, u: UserLevel, g: string, other: string)
    requires forall h :: h in before ==> OrderedDict.Valid(before[h])
    requires after == before[guildId := Put(if guildId in before then before[guildId] else [], userId, u)]
    requires g != guildId || other != userId
    ensures g in before ==> g in after
    ensures (g in before && Get(before[g], other).Some?) ==> Get(after[g], other) == Get(before[g], other)
  {
  }

  // ---------------------------------------------------------------------------
  // Leaderboard
  // ---------------------------------------------------------------------------

  /** `{ userId, ...userData }`. */
  datatype RankedUser = RankedUser(userId: string, xp: nat, level: nat, messageCount: nat, lastXpTime: int)

  function Ranked(e: Entry<UserLevel>): RankedUser {
    RankedUser(e.key, e.value.xp, e.value.level, e.value.messageCount, e.value.lastXpTime)
  }

  function RecordOf(e: RankedUser): UserLevel {
    UserLevel(e.xp, e.level, e.messageCount, e.lastXpTime)
  }

  function XpOf(e: RankedUser): int {
    e.xp
  }

  /** `Object.entries(users).map(([userId, data]) => ({ userId, ...data }))`. */
  function Entries(users: Dict<UserLevel>): (r: seq<RankedUser>)
    ensures |r| == |users|
    ensures forall i :: 0 <= i < |r| ==> r[i] == Ranked(users[i])
  {
    seq(|users|, i requires 0 <= i < |users| => Ranked(users[i]))
  }

  /** Any rearrangement of the entries names each user once, with that user's record. */
  lemma RearrangedEntries(users: Dict<UserLevel>, r: seq<RankedUser>)
    requires OrderedDict.Valid(users)
    requires multiset(r) == multiset(Entries(users))
    ensures forall i :: 0 <= i < |r| ==> Get(users, r[i].userId) == Some(RecordOf(r[i]))
    ensures forall k :: 0 <= k < |users| ==> exists i :: 0 <= i < |r| && r[i].userId == users[k].key
  {
    var entries := Entries(users);
    forall i | 0 <= i < |r| ensures Get(users, r[i].userId) == Some(RecordOf(r[i])) {
      assert r[i] in multiset(entries);
      var k :| 0 <= k < |entries| && entries[k] == r[i];
      assert users[k].key == r[i].userId;
    }
    forall k | 0 <= k < |users| ensures exists i :: 0 <= i < |r| && r[i].userId == users[k].key {
      assert entries[k] in multiset(r);
      var i :| 0 <= i < |r| && r[i] == entries[k];
    }
  }

  /** The guild's users sorted by XP, highest first, ties in the order they first wrote. */
  function ByXp(users: Dict<UserLevel>): (r: seq<RankedUser>)
    requires OrderedDict.Valid(users)
    ensures |r| == |users|
    ensures SortedDesc(r, XpOf)
    ensures forall i :: 0 <= i < |r| ==> Get(users, r[i].userId) == Some(RecordOf(r[i]))
    ensures forall k :: 0 <= k < |users| ==> exists i :: 0 <= i < |r| && r[i].userId == users[k].key
  {
    var r := SortDesc(Entries(users), XpOf);
    RearrangedEntries(users, r);
    r
  }

  /** Sorting keeps users with equal XP in the order they first wrote. */
  lemma ByXpStable(users: Dict<UserLevel>, xp: int)
    requires OrderedDict.Valid(users)
    ensures WithKey(ByXp(users), XpOf, xp) == WithKey(Entries(users), XpOf, xp)
  {
    SortDescStable(Entries(users), XpOf, xp);
  }

  /** A user the guild knows has a place in the XP order. */
  lemma KnownUserListed(users: Dict<UserLevel>, userId: string)
    requires OrderedDict.Valid(users) && Get(users, userId).Some?
    ensures exists j :: 0 <= j < |ByXp(users)| && ByXp(users)[j].userId == userId
  {
    var sorted := ByXp(users);
    var k :| 0 <= k < |users| && Keys(users)[k] == userId;
    var j :| 0 <= j < |sorted| && sorted[j].userId == users[k].key;
  }

  /** `getLeaderboard`: the first `limit` users by XP. */
  function Leaderboard(users: Dict<UserLevel>, limit: int): (r: seq<RankedUser>)
    requires OrderedDict.Valid(users)
    ensures |r| <= |users|
    ensures limit >= 0 ==> |r| == if limit < |users| then limit else |users|
    ensures SortedDesc(r, XpOf)
    ensures r == ByXp(users)[..|r|]
    ensures forall i :: 0 <= i < |r| ==> Get(users, r[i].userId) == Some(RecordOf(r[i]))
  {
    Take(ByXp(users), limit)
  }

  /** `getUserRank`: the 1-based place in XP order, or one past the last place for a stranger. */
  function UserRank(users: Dict<UserLevel>, userId: string): (r: int)
    requires OrderedDict.Valid(users)
    ensures 1 <= r <= |users| + 1
    ensures Get(users, userId).None? <==> r == |users| + 1
    ensures Get(users, userId).Some? ==>
      && ByXp(users)[r - 1].userId == userId
      && forall j :: 0 <= j < r - 1 ==> ByXp(users)[j].xp >= Get(users, userId).value.xp
  {
    var sorted := ByXp(users);
    var i := Seqs.FindIndex(sorted, (u: RankedUser) => u.userId == userId);
    assert Get(users, userId).Some? ==> i >= 0 by {
      if Get(users, userId).Some? {
        KnownUserListed(users, userId);
      }
    }
    if i >= 0 then i + 1 else |sorted| + 1
  }

  /** A user ranked within the limit is on the leaderboard at that place. */
  lemma RankOnLeaderboard(users: Dict<UserLevel>, userId: string, limit: int)
    requires OrderedDict.Valid(users)
    requires Get(users, userId).Some? && UserRank(users, userId) <= limit
    ensures Leaderboard(users, limit)[UserRank(users, userId) - 1].userId == userId
  {
  }
}
