/**
 * The analysis-credit ledger: per guild and per user, the credits left, the credits ever bought,
 * the last tier bought and a history of at most fifty charge and use entries. The persisted file
 * is the `data` field of a `MembershipLedger`; timestamps are parameters.
 */
module Membership {
  import opened Wrappers
  import opened OrderedDict
  import opened Seqs

  /** How many history entries a record keeps. */
  const HistoryCap: nat := 50

  datatype HistoryEntry =
    | Use(action: string, at: string)
    | Charge(amount: int, tier: string, admin: string, at: string)

  datatype Member = Member(credits: int, totalPurchased: int, tier: Option<string>, history: seq<HistoryEntry>)

  /** The record `chargeCredits` creates for a first purchase. */
  const NewMember: Member := Member(0, 0, None, [])

  /** Guild id to the guild's members; both levels keep the order of first purchase. */
  type Ledger = Dict<Dict<Member>>

  /** No guild and no user twice, and no history over the cap. */
  predicate LedgerValid(guilds: Ledger) {
    && OrderedDict.Valid(guilds)
    && forall i :: 0 <= i < |guilds| ==> UsersValid(guilds[i].value)
  }

  predicate UsersValid(users: Dict<Member>) {
    && OrderedDict.Valid(users)
    && forall j :: 0 <= j < |users| ==> |users[j].value.history| <= HistoryCap
  }

  /** `data[guildId] || {}`. */
  function UsersIn(guilds: Ledger, guildId: string): (r: Dict<Member>)
    requires LedgerValid(guilds)
    ensures UsersValid(r)
    ensures Get(guilds, guildId).None? ==> r == []
  {
    match Get(guilds, guildId)
    case Some(users) =>
      var i := IndexOf(guilds, guildId);
      assert guilds[i].value == users;
      users
    case None => []
  }

  /** `data[guildId]?.[userId]`. */
  function RecordIn(guilds: Ledger, guildId: string, userId: string): (r: Option<Member>)
    requires LedgerValid(guilds)
    ensures r == Get(UsersIn(guilds, guildId), userId)
    ensures r.Some? ==> |r.value.history| <= HistoryCap
    ensures Get(guilds, guildId).None? ==> r.None?
  {
    var users := UsersIn(guilds, guildId);
    var j := IndexOf(users, userId);
    if j < 0 then None else Some(users[j].value)
  }

  /** Replaces (or adds) one member, creating the guild when needed. */
  function SetMember(guilds: Ledger, guildId: string, userId: string, m: Member): (r: Ledger)
    requires LedgerValid(guilds) && |m.history| <= HistoryCap
    ensures LedgerValid(r)
    ensures RecordIn(r, guildId, userId) == Some(m)
  {
    var users := Put(UsersIn(guilds, guildId), userId, m);
    assert UsersValid(users) by {
      forall j | 0 <= j < |users| ensures |users[j].value.history| <= HistoryCap {
        var k := users[j].key;
        assert Get(users, k) == Some(users[j].value);
      }
    }
    var r := Put(guilds, guildId, users);
    assert forall i :: 0 <= i < |r| ==> UsersValid(r[i].value) by {
      forall i | 0 <= i < |r| ensures UsersValid(r[i].value) {
        var k := r[i].key;
        assert Get(r, k) == Some(r[i].value);
        if k != guildId {
          var i0 := IndexOf(guilds, k);
          assert guilds[i0].value == r[i].value;
        }
      }
    }
    r
  }

  /** Setting one member leaves every other record of every guild as it was. */
  lemma SetMemberKeepsOthers(guilds: Ledger, guildId: string, userId: string, m: Member, g: string, u: string)
    requires LedgerValid(guilds) && |m.history| <= HistoryCap
    requires g != guildId || u != userId
    ensures RecordIn(SetMember(guilds, guildId, userId, m), g, u) == RecordIn(guilds, g, u)
  {
  }

  // ---------------------------------------------------------------------------
  // The two updates on one record
  // ---------------------------------------------------------------------------

  /** `history.slice(-50)` once the history is longer than the cap: the most recent entries, in order. */
  function Capped(h: seq<HistoryEntry>): (r: seq<HistoryEntry>)
    ensures |r| == if |h| > HistoryCap then HistoryCap else |h|
    ensures r == h[|h| - |r|..]
  {
    if |h| > HistoryCap then h[|h| - HistoryCap..] else h
  }

  /** `history.push(e)`, then `history.slice(-50)` when the history has grown past the cap. */
  method PushCapped(history: seq<HistoryEntry>, e: HistoryEntry) returns (h: seq<HistoryEntry>)
    ensures h == Capped(history + [e])
  {
    h := history + [e];
    if |h| > HistoryCap {
      h := h[|h| - HistoryCap..];
    }
  }

  /** The record after one successful `useCredit`. */
  function Used(m: Member, action: string, at: string): (r: Member)
    ensures r.credits == m.credits - 1
    ensures r.totalPurchased == m.totalPurchased && r.tier == m.tier
    ensures 1 <= |r.history| <= HistoryCap && r.history[|r.history| - 1] == Use(action, at)
    ensures |m.history| < HistoryCap ==> r.history == m.history + [Use(action, at)]
    ensures |m.history| >= HistoryCap ==> r.history == m.history[|m.history| + 1 - HistoryCap..] + [Use(action, at)]
  {
    var h := m.history + [Use(action, at)];
    assert |h| > HistoryCap ==> h[|h| - HistoryCap..] == m.history[|m.history| + 1 - HistoryCap..] + [Use(action, at)];
    m.(credits := m.credits - 1, history := Capped(h))
  }

  /** The record after `chargeCredits`, from the stored record or from a fresh one. */
  function Charged(m: Member, amount: int, tier: string, admin: string, at: string): (r: Member)
    ensures r.credits == m.credits + amount
    ensures r.totalPurchased == m.totalPurchased + amount
    ensures r.tier == Some(tier)
    ensures 1 <= |r.history| <= HistoryCap && r.history[|r.history| - 1] == Charge(amount, tier, admin, at)
    ensures |m.history| < HistoryCap ==> r.history == m.history + [Charge(amount, tier, admin, at)]
    ensures |m.history| >= HistoryCap ==>
      r.history == m.history[|m.history| + 1 - HistoryCap..] + [Charge(amount, tier, admin, at)]
  {
    var h := m.history + [Charge(amount, tier, admin, at)];
    assert |h| > HistoryCap ==> h[|h| - HistoryCap..] == m.history[|m.history| + 1 - HistoryCap..] + [Charge(amount, tier, admin, at)];
    m.(credits := m.credits + amount, totalPurchased := m.totalPurchased + amount, tier := Some(tier),
       history := Capped(m.history + [Charge(amount, tier, admin, at)]))
  }

  /** The record-building steps of `chargeCredits`. */
  method ChargeRecord(stored: Option<Member>, amount: int, tier: string, admin: string, at: string)
    returns (user: Member)
    ensures user == Charged(stored.GetOr(NewMember), amount, tier, admin, at)
  {
    user := NewMember;
    if stored.Some? {
      user := stored.value;
    }
    user := user.(credits := user.credits + amount);
    user := user.(totalPurchased := user.totalPurchased + amount);
    user := user.(tier := Some(tier));
    var history := PushCapped(user.history, Charge(amount, tier, admin, at));
    user := user.(history := history);
  }

  function UseCountOf(m: Member): int {
    |Filter(m.history, (h: HistoryEntry) => h.Use?)|
  }

  /** Credits left plus the uses on record equal the credits bought. */
  predicate Balanced(m: Member) {
    m.credits + UseCountOf(m) == m.totalPurchased
  }

  lemma FilterSnoc(h: seq<HistoryEntry>, e: HistoryEntry)
    ensures Filter(h + [e], (x: HistoryEntry) => x.Use?)
         == Filter(h, (x: HistoryEntry) => x.Use?) + (if e.Use? then [e] else [])
  {
    FilterAppend(h, [e], (x: HistoryEntry) => x.Use?);
  }

  /**
   * While the history is below the cap, both updates keep a record balanced; once it is full,
   * each update pushes the oldest entry out and a dropped use no longer shows in the stats.
   */
  lemma UpdatesKeepBalance(m: Member, action: string, amount: int, tier: string, admin: string, at: string)
    requires |m.history| < HistoryCap && Balanced(m)
    ensures Balanced(Used(m, action, at))
    ensures Balanced(Charged(m, amount, tier, admin, at))
  {
    FilterSnoc(m.history, Use(action, at));
    FilterSnoc(m.history, Charge(amount, tier, admin, at));
  }

  /** A first purchase gives a balanced record. */
  lemma FirstChargeBalanced(amount: int, tier: string, admin: string, at: string)
    ensures Balanced(Charged(NewMember, amount, tier, admin, at))
    ensures Charged(NewMember, amount, tier, admin, at).credits == amount
  {
    var c := Charge(amount, tier, admin, at);
    var m := Charged(NewMember, amount, tier, admin, at);
    assert m.history == [] + [c];
    FilterSnoc([], c);
    assert UseCountOf(m) == 0;
  }

  /** The oldest use is forgotten when a use arrives at a full history made only of uses. */
  lemma FullHistoryForgetsUse(m: Member, action: string, at: string)
    requires |m.history| == HistoryCap
    requires forall i :: 0 <= i < |m.history| ==> m.history[i].Use?
    ensures UseCountOf(Used(m, action, at)) == UseCountOf(m)
  {
    var p := (x: HistoryEntry) => x.Use?;
    var h := Used(m, action, at).history;
    assert h == m.history[1..] + [Use(action, at)];
    forall i | 0 <= i < |h| ensures p(h[i]) {
      if i < |h| - 1 {
        assert h[i] == m.history[i + 1];
      }
    }
    FilterAll(m.history, p);
    FilterAll(h, p);
  }

  // ---------------------------------------------------------------------------
  // The ledger
  // ---------------------------------------------------------------------------

  class MembershipLedger {
    var data: Ledger

    ghost predicate Valid()
      reads this
    {
      LedgerValid(data)
    }

    constructor ()
      ensures data == [] && Valid()
    {
      data := [];
    }

    /** `getMembershipInfo`: the stored record, or null. */
    function Record(guildId: string, userId: string): (r: Option<Member>)
      requires Valid()
      reads this
      ensures r.Some? ==> Get(UsersIn(data, guildId), userId) == r
      ensures r.None? <==> Get(UsersIn(data, guildId), userId).None?
    {
      RecordIn(data, guildId, userId)
    }

    /** `getCredits`: the stored credits, 0 for an unknown guild or user. */
    function Credits(guildId: string, userId: string): (r: int)
      requires Valid()
      reads this
      ensures Record(guildId, userId).None? ==> r == 0
      ensures Record(guildId, userId).Some? ==> r == Record(guildId, userId).value.credits
    {
      match Record(guildId, userId)
      case Some(m) => m.credits
      case None => 0
    }

    /** `hasCredit`. */
    function HasCredit(guildId: string, userId: string): (r: bool)
      requires Valid()
      reads this
      ensures r <==> Record(guildId, userId).Some? && Record(guildId, userId).value.credits > 0
    {
      Credits(guildId, userId) > 0
    }

    /**
     * `useCredit`: refuses, changing nothing, without a record or without credits; otherwise
     * takes one credit, logs the use and leaves every other record as it was.
     */
    method UseCredit(guildId: string, userId: string, action: string, at: string) returns (ok: bool)
      requires Valid()
      modifies this
      ensures Valid()
      ensures ok <==> old(HasCredit(guildId, userId))
      ensures !ok ==> data == old(data)
      ensures ok ==> data == SetMember(old(data), guildId, userId, Used(old(Record(guildId, userId)).value, action, at))
      ensures ok ==> Credits(guildId, userId) == old(Credits(guildId, userId)) - 1 >= 0
    {
      var rec := Record(guildId, userId);
      if rec.None? || rec.value.credits <= 0 {
        return false;
      }
      var m := rec.value;
      m := m.(credits := m.credits - 1);
      var history := PushCapped(m.history, Use(action, at));
      m := m.(history := history);
      assert m == Used(rec.value, action, at);
      data := SetMember(data, guildId, userId, m);
      ok := true;
    }

    /** `chargeCredits`: creates the record when absent, adds the credits, sets the tier and logs it. */
    method ChargeCredits(guildId: string, userId: string, amount: int, tier: string, adminId: string, at: string)
      returns (m: Member)
      requires Valid()
      modifies this
      ensures Valid()
      ensures m == Charged(old(Record(guildId, userId)).GetOr(NewMember), amount, tier, adminId, at)
      ensures data == SetMember(old(data), guildId, userId, m)
      ensures Record(guildId, userId) == Some(m)
    {
      var stored := Record(guildId, userId);
      var base := stored.GetOr(NewMember);
      assert |base.history| <= HistoryCap;
      m := ChargeRecord(stored, amount, tier, adminId, at);
      assert m == Charged(base, amount, tier, adminId, at);
      data := SetMember(data, guildId, userId, m);
    }

    /** `getMembershipStats`: totals over every record and one row per guild. */
    method MembershipStats() returns (s: Stats)
      requires Valid()
      ensures s == StatsOf(data)
    {
      var totalUsers, totalCredits, totalPurchased, totalUsed := 0, 0, 0, 0;
      var serverStats: Dict<GuildStats> := [];
      for i := 0 to |data|
        invariant totalUsers == |MembersOf(data[..i])|
        invariant totalCredits == SumBy(MembersOf(data[..i]), CreditsOf)
        invariant totalPurchased == SumBy(MembersOf(data[..i]), PurchasedOf)
        invariant totalUsed == SumBy(MembersOf(data[..i]), UseCountOf)
        invariant serverStats == ServerStatsOf(data[..i])
      {
        var users := data[i].value;
        var guildCredits, guildPurchased, guildUsed := 0, 0, 0;
        for j := 0 to |users|
          invariant totalUsers == |MembersOf(data[..i])| + j
          invariant guildCredits == SumBy(Values(users)[..j], CreditsOf)
          invariant guildPurchased == SumBy(Values(users)[..j], PurchasedOf)
          invariant guildUsed == SumBy(Values(users)[..j], UseCountOf)
          invariant totalCredits == SumBy(MembersOf(data[..i]), CreditsOf) + guildCredits
          invariant totalPurchased == SumBy(MembersOf(data[..i]), PurchasedOf) + guildPurchased
          invariant totalUsed == SumBy(MembersOf(data[..i]), UseCountOf) + guildUsed
        {
          var info := users[j].value;
          UserSums(users, j);
          totalUsers := totalUsers + 1;
          totalCredits := totalCredits + info.credits;
          totalPurchased := totalPurchased + info.totalPurchased;
          guildCredits := guildCredits + info.credits;
          guildPurchased := guildPurchased + info.totalPurchased;
          var useCount := |Filter(info.history, (h: HistoryEntry) => h.Use?)|;
          totalUsed := totalUsed + useCount;
          guildUsed := guildUsed + useCount;
        }
        assert Values(users)[..|users|] == Values(users);
        GuildSums(data, i);
        serverStats := serverStats + [Entry(data[i].key, GuildStats(|users|, guildCredits, guildPurchased, guildUsed))];
      }
      assert data[..|data|] == data;
      s := Stats(totalUsers, totalCredits, totalPurchased, totalUsed, serverStats);
    }
  }

  // ---------------------------------------------------------------------------
  // Statistics
  // ---------------------------------------------------------------------------

  datatype GuildStats = GuildStats(users: nat, creditsRemaining: int, totalPurchased: int, totalUsed: int)

  datatype Stats = Stats(
    totalUsers: nat, totalCreditsRemaining: int, totalPurchased: int, totalUsed: int, serverStats: Dict<GuildStats>)

  function CreditsOf(m: Member): int { m.credits }
  function PurchasedOf(m: Member): int { m.totalPurchased }

  /** Every user record of every guild, guild by guild. */
  function MembersOf(guilds: Ledger): seq<Member> {
    if |guilds| == 0 then [] else MembersOf(guilds[..|guilds| - 1]) + Values(guilds[|guilds| - 1].value)
  }

  lemma MembersOfSnoc(guilds: Ledger, i: nat)
    requires i < |guilds|
    ensures MembersOf(guilds[..i + 1]) == MembersOf(guilds[..i]) + Values(guilds[i].value)
  {
    assert guilds[..i + 1][..i] == guilds[..i];
  }

  /** One more user in the inner loop of `getMembershipStats`. */
  lemma UserSums(users: Dict<Member>, j: nat)
    requires j < |users|
    ensures var vs, m := Values(users), users[j].value;
      && SumBy(vs[..j + 1], CreditsOf) == SumBy(vs[..j], CreditsOf) + m.credits
      && SumBy(vs[..j + 1], PurchasedOf) == SumBy(vs[..j], PurchasedOf) + m.totalPurchased
      && SumBy(vs[..j + 1], UseCountOf) == SumBy(vs[..j], UseCountOf) + UseCountOf(m)
  {
    var vs, m := Values(users), users[j].value;
    assert vs[..j + 1] == vs[..j] + [m];
    SumByAppend(vs[..j], [m], CreditsOf);
    SumByAppend(vs[..j], [m], PurchasedOf);
    SumByAppend(vs[..j], [m], UseCountOf);
  }

  /** One more guild in the outer loop of `getMembershipStats`. */
  lemma GuildSums(guilds: Ledger, i: nat)
    requires i < |guilds|
    ensures var before, vs := MembersOf(guilds[..i]), Values(guilds[i].value);
      && |MembersOf(guilds[..i + 1])| == |before| + |vs|
      && SumBy(MembersOf(guilds[..i + 1]), CreditsOf) == SumBy(before, CreditsOf) + SumBy(vs, CreditsOf)
      && SumBy(MembersOf(guilds[..i + 1]), PurchasedOf) == SumBy(before, PurchasedOf) + SumBy(vs, PurchasedOf)
      && SumBy(MembersOf(guilds[..i + 1]), UseCountOf) == SumBy(before, UseCountOf) + SumBy(vs, UseCountOf)
      && ServerStatsOf(guilds[..i + 1]) == ServerStatsOf(guilds[..i]) + [Entry(guilds[i].key, GuildStatsOf(guilds[i].value))]
  {
    var before, vs := MembersOf(guilds[..i]), Values(guilds[i].value);
    MembersOfSnoc(guilds, i);
    SumByAppend(before, vs, CreditsOf);
    SumByAppend(before, vs, PurchasedOf);
    SumByAppend(before, vs, UseCountOf);
  }

  function GuildStatsOf(users: Dict<Member>): GuildStats {
    var ms := Values(users);
    GuildStats(|users|, SumBy(ms, CreditsOf), SumBy(ms, PurchasedOf), SumBy(ms, UseCountOf))
  }

  function ServerStatsOf(guilds: Ledger): (r: Dict<GuildStats>)
    ensures Keys(r) == Keys(guilds)
  {
    seq(|guilds|, i requires 0 <= i < |guilds| => Entry(guilds[i].key, GuildStatsOf(guilds[i].value)))
  }

  /** The figures `getMembershipStats` reports, defined on the records themselves. */
  function StatsOf(guilds: Ledger): Stats {
    var all := MembersOf(guilds);
    Stats(|all|, SumBy(all, CreditsOf), SumBy(all, PurchasedOf), SumBy(all, UseCountOf), ServerStatsOf(guilds))
  }

  function GuildUsersOf(g: GuildStats): int { g.users }
  function GuildCreditsOf(g: GuildStats): int { g.creditsRemaining }
  function GuildPurchasedOf(g: GuildStats): int { g.totalPurchased }
  function GuildUsedOf(g: GuildStats): int { g.totalUsed }

  /** One more guild adds its row at the end. */
  lemma ServerStatsSnoc(guilds: Ledger)
    requires |guilds| > 0
    ensures Values(ServerStatsOf(guilds))
         == Values(ServerStatsOf(guilds[..|guilds| - 1])) + [GuildStatsOf(guilds[|guilds| - 1].value)]
  {
    var a, b := Values(ServerStatsOf(guilds)), Values(ServerStatsOf(guilds[..|guilds| - 1]));
    assert forall i :: 0 <= i < |b| ==> a[i] == b[i];
  }

  /** Each total is the sum of the per-guild rows. */
  lemma {:induction false} StatsAddUp(guilds: Ledger)
    ensures var s := StatsOf(guilds); var rows := Values(s.serverStats);
      && s.totalUsers == SumBy(rows, GuildUsersOf)
      && s.totalCreditsRemaining == SumBy(rows, GuildCreditsOf)
      && s.totalPurchased == SumBy(rows, GuildPurchasedOf)
      && s.totalUsed == SumBy(rows, GuildUsedOf)
    decreases |guilds|
  {
    if |guilds| > 0 {
      var n := |guilds| - 1;
      var init := guilds[..n];
      StatsAddUp(init);
      var rows, initRows := Values(ServerStatsOf(guilds)), Values(ServerStatsOf(init));
      var last := GuildStatsOf(guilds[n].value);
      ServerStatsSnoc(guilds);
      var ms := Values(guilds[n].value);
      SumByAppend(MembersOf(init), ms, CreditsOf);
      SumByAppend(MembersOf(init), ms, PurchasedOf);
      SumByAppend(MembersOf(init), ms, UseCountOf);
      SumByAppend(initRows, [last], GuildUsersOf);
      SumByAppend(initRows, [last], GuildCreditsOf);
      SumByAppend(initRows, [last], GuildPurchasedOf);
      SumByAppend(initRows, [last], GuildUsedOf);
    }
  }

  /** The used count can never exceed fifty per user, however many credits were used. */
  lemma {:induction false} UsedBounded(ms: seq<Member>)
    requires forall i :: 0 <= i < |ms| ==> |ms[i].history| <= HistoryCap
    ensures 0 <= SumBy(ms, UseCountOf) <= HistoryCap * |ms|
    decreases |ms|
  {
    if |ms| > 0 {
      UsedBounded(ms[1..]);
    }
  }
}
