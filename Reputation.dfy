/**
 * The partner reputation guard: the logs of recently seen partners, the ban list, and
 * the decision CheckPartnerReputation takes about a partner before anything is traded.
 */
module Reputation {
  import opened TradeTypes

  /** A remembered partner (TrackedUser): network id, in-game name, the local requester
      it was serving, and when it was seen (milliseconds). */
  datatype TrackedUser = TrackedUser(networkId: nat, name: string, remoteId: nat, time: int)

  function Lookup(m: map<nat, TrackedUser>, key: nat): (r: Option<TrackedUser>)
    ensures r.Some? <==> key in m
    ensures r.Some? ==> r.value == m[key]
  {
    if key in m then Some(m[key]) else None
  }

  /** Every entry is filed under its own network id. */
  predicate Keyed(m: map<nat, TrackedUser>)
  {
    forall k :: k in m ==> m[k].networkId == k
  }

  /** A log of recently seen users (TrackedUserLog), keyed by network id. */
  class TrackedUserLog {
    var Users: map<nat, TrackedUser>

    ghost predicate Valid()
      reads this
    {
      Keyed(Users)
    }

    constructor ()
      ensures Valid() && Users == map[]
    {
      Users := map[];
    }

    /** Read-only lookup of the last entry for `networkId`. */
    method TryGetPrevious(networkId: nat) returns (r: Option<TrackedUser>)
      ensures r.Some? <==> networkId in Users
      ensures r.Some? ==> r.value == Users[networkId]
    {
      if networkId in Users {
        r := Some(Users[networkId]);
      } else {
        r := None;
      }
    }

    /** Records the user seen now, replacing any earlier entry, and returns that entry. */
    method TryRegister(networkId: nat, name: string, remoteId: nat, now: int) returns (previous: Option<TrackedUser>)
      requires Valid()
      modifies this
      ensures Valid()
      ensures previous == Lookup(old(Users), networkId)
      ensures Users == old(Users)[networkId := TrackedUser(networkId, name, remoteId, now)]
    {
      previous := Lookup(Users, networkId);
      Users := Users[networkId := TrackedUser(networkId, name, remoteId, now)];
    }
  }

  /** An entry of the banned-id list (RemoteControlAccess). */
  datatype BanEntry = BanEntry(id: nat, name: string, comment: string)

  predicate IsBanned(entries: seq<BanEntry>, id: nat)
  {
    exists i :: 0 <= i < |entries| && entries[i].id == id
  }

  /** Index of the first entry for `id`, or the length of the list. */
  function FirstIndex(entries: seq<BanEntry>, id: nat): (k: nat)
    ensures k <= |entries|
    ensures forall j :: 0 <= j < k ==> entries[j].id != id
    ensures k < |entries| ==> entries[k].id == id
  {
    if entries == [] || entries[0].id == id then 0 else 1 + FirstIndex(entries[1..], id)
  }

  /** The list lookup of the guard: the first entry with the partner's id. */
  function FindBanned(entries: seq<BanEntry>, id: nat): (r: Option<BanEntry>)
    ensures r.Some? <==> IsBanned(entries, id)
    ensures r.Some? ==> r.value.id == id && r.value in entries
  {
    var k := FirstIndex(entries, id);
    if k < |entries| then Some(entries[k]) else None
  }

  /** AddIfNew for one entry: appended unless its id is already listed. */
  function IncludeIfNew(entries: seq<BanEntry>, e: BanEntry): (r: seq<BanEntry>)
    ensures IsBanned(r, e.id)
    ensures IsBanned(entries, e.id) ==> r == entries
    ensures !IsBanned(entries, e.id) ==> r == entries + [e]
  {
    if FirstIndex(entries, e.id) < |entries| then entries
    else
      assert (entries + [e])[|entries|] == e;
      entries + [e]
  }

  class BanList {
    var List: seq<BanEntry>

    constructor (entries: seq<BanEntry>)
      ensures List == entries
    {
      List := entries;
    }

    method AddIfNew(e: BanEntry)
      modifies this
      ensures List == IncludeIfNew(old(List), e)
    {
      List := IncludeIfNew(List, e);
    }
  }

  datatype TradeAbuseAction = Ignore | Quit | BlockAndQuit

  /** The abuse settings the guard reads (TradeAbuseSettings); minutes for durations. */
  datatype AbuseSettings = AbuseSettings(
    tradeCooldown: nat,
    tradeAbuseAction: TradeAbuseAction,
    banIDWhenBlockingUser: bool,
    tradeAbuseExpiration: nat,
    blockDetectedBannedUser: bool)

  const MillisPerMinute: nat := 60_000

  const MultipleSavesComment: string := "给多个游戏存档发送游戏数据"
  const MultipleAccountsComment: string := "in-game block for multiple accounts"

  /** The shared logs: PreviousUsers, PreviousUsersDistribution, EncounteredUsers, BannedIDs. */
  datatype Logs = Logs(
    previous: map<nat, TrackedUser>,
    distribution: map<nat, TrackedUser>,
    encountered: map<nat, TrackedUser>,
    banned: seq<BanEntry>)

  /** The guard's answer, whether it blocked the partner in game, and the logs after it. */
  datatype Verdict = Verdict(result: TradeResult, blocked: bool, logs: Logs)

  /** The partner traded within the cooldown. */
  predicate CooldownViolated(seen: Option<TrackedUser>, cooldown: nat, now: int)
  {
    seen.Some? && cooldown != 0 && cooldown * MillisPerMinute > now - seen.value.time
  }

  /** The requester was last seen under a different in-game name. */
  predicate NameChanged(seen: Option<TrackedUser>, name: string)
  {
    seen.Some? && seen.value.name != name
  }

  /** The partner's network id served a different requester within the expiration. */
  predicate OtherRequesterRecently(seen: Option<TrackedUser>, nid: nat, requester: nat, now: int, expiration: nat)
  {
    seen.Some? && seen.value.networkId == nid && seen.value.remoteId != requester
    && now - seen.value.time < expiration * MillisPerMinute
  }

  /** The multi-save check fires: the requester was last seen under another in-game name,
      for a request that is not a distribution, and the action is not Ignore. */
  predicate MultiSaveFired(logs: Logs, s: AbuseSettings, isDistribution: bool, requester: nat, name: string)
  {
    !isDistribution && s.tradeAbuseAction != Ignore && NameChanged(Lookup(logs.encountered, requester), name)
  }

  /** The multi-account check fires on the entry the partner's registration replaces. */
  predicate MultiAccountFired(logs: Logs, s: AbuseSettings, isDistribution: bool, requester: nat, nid: nat, now: int)
  {
    && !isDistribution && s.tradeAbuseAction != Ignore
    && OtherRequesterRecently(Lookup(PartnerLog(logs, isDistribution), nid), nid, requester, now, s.tradeAbuseExpiration)
  }

  /** The partner log a request kind is tracked in. */
  function PartnerLog(logs: Logs, isDistribution: bool): map<nat, TrackedUser>
  {
    if isDistribution then logs.distribution else logs.previous
  }

  /**
   * CheckPartnerReputation. In order: the cooldown (read only); the multi-save check on
   * EncounteredUsers, which registers the requester even when the cooldown already
   * fired; an early exit; registration of the partner, then the multi-account check on
   * the entry it replaced; an early exit; the ban list.
   */
  function CheckPartner(logs: Logs, s: AbuseSettings, isDistribution: bool, requester: nat,
                        nid: nat, name: string, now: int): (v: Verdict)
    ensures v.result == Success || v.result == SuspiciousActivity
    ensures v.result == Success <==>
              && !CooldownViolated(Lookup(PartnerLog(logs, isDistribution), nid), s.tradeCooldown, now)
              && (isDistribution || s.tradeAbuseAction == Ignore
                  || !NameChanged(Lookup(logs.encountered, requester), name))
              && (isDistribution || s.tradeAbuseAction == Ignore
                  || !OtherRequesterRecently(Lookup(PartnerLog(logs, isDistribution), nid), nid, requester, now,
                                             s.tradeAbuseExpiration))
              && !IsBanned(logs.banned, nid)
    ensures v.blocked ==> v.result == SuspiciousActivity
    ensures v.blocked ==> s.tradeAbuseAction == BlockAndQuit || (IsBanned(logs.banned, nid) && s.blockDetectedBannedUser)
  {
    var list := PartnerLog(logs, isDistribution);
    var seen := Lookup(list, nid);
    var cooldownHit := CooldownViolated(seen, s.tradeCooldown, now);
    var encountered :=
      if isDistribution then logs.encountered
      else logs.encountered[requester := TrackedUser(requester, name, requester, now)];
    var multiSave := MultiSaveFired(logs, s, isDistribution, requester, name);
    var block1 := multiSave && s.tradeAbuseAction == BlockAndQuit;
    var banned1 :=
      if block1 && s.banIDWhenBlockingUser then IncludeIfNew(logs.banned, BanEntry(nid, name, MultipleSavesComment))
      else logs.banned;
    if cooldownHit || multiSave then
      Verdict(SuspiciousActivity, block1, logs.(encountered := encountered, banned := banned1))
    else
      var registered := list[nid := TrackedUser(nid, name, if isDistribution then 0 else requester, now)];
      var logs2 :=
        if isDistribution then logs.(distribution := registered)
        else logs.(previous := registered, encountered := encountered);
      var multiAccount := MultiAccountFired(logs, s, isDistribution, requester, nid, now);
      if multiAccount then
        var block2 := s.tradeAbuseAction == BlockAndQuit;
        var banned2 :=
          if block2 && s.banIDWhenBlockingUser then IncludeIfNew(logs.banned, BanEntry(nid, name, MultipleAccountsComment))
          else logs.banned;
        Verdict(SuspiciousActivity, block2, logs2.(banned := banned2))
      else if IsBanned(logs.banned, nid) then
        Verdict(SuspiciousActivity, s.blockDetectedBannedUser, logs2)
      else
        Verdict(Success, false, logs2)
  }

  /** The logs after the guard: the requester is registered in EncounteredUsers (not for
      a distribution); the partner is registered in its own partner log unless the
      cooldown or multi-save check turned it away first, rejections after that included;
      the other partner log is untouched; the ban list gains at most one entry, for the
      partner, and only under BlockAndQuit with BanIDWhenBlockingUser. */
  lemma CheckPartnerLogs(logs: Logs, s: AbuseSettings, isDistribution: bool, requester: nat,
                         nid: nat, name: string, now: int)
    ensures var v := CheckPartner(logs, s, isDistribution, requester, nid, name, now);
            && v.logs.encountered ==
                 (if isDistribution then logs.encountered
                  else logs.encountered[requester := TrackedUser(requester, name, requester, now)])
            && PartnerLog(v.logs, !isDistribution) == PartnerLog(logs, !isDistribution)
            && PartnerLog(v.logs, isDistribution) ==
                 (if || CooldownViolated(Lookup(PartnerLog(logs, isDistribution), nid), s.tradeCooldown, now)
                     || MultiSaveFired(logs, s, isDistribution, requester, name)
                  then PartnerLog(logs, isDistribution)
                  else PartnerLog(logs, isDistribution)[nid := TrackedUser(nid, name, if isDistribution then 0 else requester, now)])
            && (v.logs.banned == logs.banned
                || (&& s.tradeAbuseAction == BlockAndQuit && s.banIDWhenBlockingUser && !isDistribution
                    && v.result == SuspiciousActivity && !IsBanned(logs.banned, nid)
                    && |v.logs.banned| == |logs.banned| + 1 && v.logs.banned[..|logs.banned|] == logs.banned
                    && v.logs.banned[|logs.banned|].id == nid))
  {
  }

  /** Who is blocked in game and who is banned: BlockAndQuit blocks a partner caught by
      the multi-save check, or by the multi-account check when nothing turned it away
      before; a partner turned away only by the ban list is blocked when
      BlockDetectedBannedUser is set; and under BlockAndQuit with BanIDWhenBlockingUser
      the partner caught by either check is added to the ban list with that check's comment. */
  lemma CheckPartnerBlocksAndBans(logs: Logs, s: AbuseSettings, isDistribution: bool, requester: nat,
                                  nid: nat, name: string, now: int)
    ensures var v := CheckPartner(logs, s, isDistribution, requester, nid, name, now);
            var cooldownHit := CooldownViolated(Lookup(PartnerLog(logs, isDistribution), nid), s.tradeCooldown, now);
            var multiSave := MultiSaveFired(logs, s, isDistribution, requester, name);
            var multiAccount := MultiAccountFired(logs, s, isDistribution, requester, nid, now);
            var banning := s.tradeAbuseAction == BlockAndQuit && s.banIDWhenBlockingUser;
            && (v.blocked <==>
                  || (s.tradeAbuseAction == BlockAndQuit && multiSave)
                  || (s.tradeAbuseAction == BlockAndQuit && !cooldownHit && multiAccount)
                  || (!cooldownHit && !multiSave && !multiAccount && IsBanned(logs.banned, nid) && s.blockDetectedBannedUser))
            && (banning && multiSave ==>
                  v.logs.banned == IncludeIfNew(logs.banned, BanEntry(nid, name, MultipleSavesComment)))
            && (banning && !cooldownHit && !multiSave && multiAccount ==>
                  v.logs.banned == IncludeIfNew(logs.banned, BanEntry(nid, name, MultipleAccountsComment)))
  {
  }

  /** A partner admitted at time t1 and met again before the cooldown has run out is
      turned away, whoever it is trading for. */
  lemma RepeatWithinCooldownIsSuspicious(logs: Logs, s: AbuseSettings, isDistribution: bool,
                                         requester: nat, nid: nat, name: string, t1: int,
                                         requester2: nat, name2: string, t2: int)
    requires CheckPartner(logs, s, isDistribution, requester, nid, name, t1).result == Success
    requires s.tradeCooldown != 0 && t2 - t1 < s.tradeCooldown * MillisPerMinute
    ensures CheckPartner(CheckPartner(logs, s, isDistribution, requester, nid, name, t1).logs,
                         s, isDistribution, requester2, nid, name2, t2).result == SuspiciousActivity
  {
    CheckPartnerLogs(logs, s, isDistribution, requester, nid, name, t1);
    var logs1 := CheckPartner(logs, s, isDistribution, requester, nid, name, t1).logs;
    assert Lookup(PartnerLog(logs1, isDistribution), nid) == Some(TrackedUser(nid, name, if isDistribution then 0 else requester, t1));
  }

  /** A requester seen under one in-game name and then under another is turned away
      unless the configured action is Ignore, and is not judged on names when it is. */
  lemma SecondSaveOfRequester(logs: Logs, s: AbuseSettings, requester: nat, nid: nat, name: string, t1: int,
                              nid2: nat, name2: string, t2: int)
    requires name2 != name
    ensures var logs1 := CheckPartner(logs, s, false, requester, nid, name, t1).logs;
            var v := CheckPartner(logs1, s, false, requester, nid2, name2, t2);
            (s.tradeAbuseAction != Ignore ==> v.result == SuspiciousActivity)
            && (s.tradeAbuseAction == Ignore ==>
                  (v.result == Success <==>
                     !CooldownViolated(Lookup(logs1.previous, nid2), s.tradeCooldown, t2) && !IsBanned(logs1.banned, nid2)))
  {
    CheckPartnerLogs(logs, s, false, requester, nid, name, t1);
    var logs1 := CheckPartner(logs, s, false, requester, nid, name, t1).logs;
    assert Lookup(logs1.encountered, requester) == Some(TrackedUser(requester, name, requester, t1));
  }
}
