/** The channel listener that mirrors App Center traffic to One Collector:
    every group gets a twin group named `<group>/one`, logs bound for One
    Collector are kept out of the App Center groups, and each Common Schema
    log is stamped with the install id and a per-iKey epoch and sequence
    number.

    Converting a log to Common Schema logs is the serializer's job and is
    not modelled: `OnPreparedLog` takes the converted logs. Random UUIDs
    come from an oracle indexed by how many have been drawn so far. The
    channel is not modelled either: the calls made on it are appended to a
    trace. */
module OneCollectorChannelListener {
  import opened JavaBasics

  const ONE_COLLECTOR_TRIGGER_INTERVAL: int := 3 * 1000
  const ONE_COLLECTOR_TRIGGER_COUNT: int := 50
  const ONE_COLLECTOR_TRIGGER_MAX_PARALLEL_REQUESTS: int := 3
  const ONE_COLLECTOR_GROUP_NAME_SUFFIX: string := "/one"

  // ---------------------------------------------------------------------
  // Group names and filtering

  /** getOneCollectorGroupName: the twin group of `groupName`. */
  function GetOneCollectorGroupName(groupName: string): (r: string)
    ensures IsOneCollectorGroup(r)
    ensures |r| == |groupName| + |ONE_COLLECTOR_GROUP_NAME_SUFFIX| && r[..|groupName|] == groupName
  {
    var r := groupName + ONE_COLLECTOR_GROUP_NAME_SUFFIX;
    assert r[|r| - |ONE_COLLECTOR_GROUP_NAME_SUFFIX|..] == ONE_COLLECTOR_GROUP_NAME_SUFFIX;
    r
  }

  /** isOneCollectorGroup: the name carries the twin suffix. */
  predicate IsOneCollectorGroup(groupName: string): (r: bool)
    ensures r <==> |groupName| >= |ONE_COLLECTOR_GROUP_NAME_SUFFIX| &&
                   groupName == groupName[..|groupName| - |ONE_COLLECTOR_GROUP_NAME_SUFFIX|] + ONE_COLLECTOR_GROUP_NAME_SUFFIX
  {
    EndsWith(groupName, ONE_COLLECTOR_GROUP_NAME_SUFFIX)
  }

  /** The twin names are exactly the names with the suffix, and a twin name
      comes from one group only. */
  lemma OneCollectorGroupsAreTwins(groupName: string)
    ensures IsOneCollectorGroup(groupName) <==> exists g :: GetOneCollectorGroupName(g) == groupName
    ensures forall g1, g2 :: GetOneCollectorGroupName(g1) == GetOneCollectorGroupName(g2) ==> g1 == g2
  {
    if IsOneCollectorGroup(groupName) {
      var g := groupName[..|groupName| - |ONE_COLLECTOR_GROUP_NAME_SUFFIX|];
      assert GetOneCollectorGroupName(g) == groupName;
    }
    forall g1, g2 | GetOneCollectorGroupName(g1) == GetOneCollectorGroupName(g2)
      ensures g1 == g2
    {
      assert GetOneCollectorGroupName(g1)[..|g1|] == g1;
    }
  }

  /** The part of a log `shouldFilter` looks at. */
  datatype Log = Log(transmissionTargetTokens: set<string>, isCommonSchemaLog: bool)

  /** shouldFilter: keep a log out of App Center when it is bound for One
      Collector and has not been converted yet. */
  function ShouldFilter(log: Log): (r: bool)
    ensures r <==> log.transmissionTargetTokens != {} && !log.isCommonSchemaLog
  {
    !(|log.transmissionTargetTokens| == 0) && !log.isCommonSchemaLog
  }

  /** A call made on the channel. `addGroup` also receives a null ingestion
      and a null group listener, which are not recorded. */
  datatype ChannelCall =
    | AddGroup(groupName: string, maxLogsPerBatch: int, batchTimeInterval: int, maxParallelBatches: int)
    | RemoveGroup(groupName: string)
    | Clear(groupName: string)

  /** onGroupAdded, specified. */
  function GroupAddedCalls(groupName: string): seq<ChannelCall> {
    if IsOneCollectorGroup(groupName) then []
    else [AddGroup(GetOneCollectorGroupName(groupName), ONE_COLLECTOR_TRIGGER_COUNT,
                   ONE_COLLECTOR_TRIGGER_INTERVAL, ONE_COLLECTOR_TRIGGER_MAX_PARALLEL_REQUESTS)]
  }

  /** onGroupRemoved, specified. */
  function GroupRemovedCalls(groupName: string): seq<ChannelCall> {
    if IsOneCollectorGroup(groupName) then [] else [RemoveGroup(GetOneCollectorGroupName(groupName))]
  }

  /** onClear, specified. */
  function ClearCalls(groupName: string): seq<ChannelCall> {
    if IsOneCollectorGroup(groupName) then [] else [Clear(GetOneCollectorGroupName(groupName))]
  }

  /** A group event acts on the twin group of an ordinary group, and a twin
      group's own events act on nothing, so twins are never mirrored again. */
  lemma GroupEventsMirrorOnce(groupName: string)
    ensures !IsOneCollectorGroup(groupName) ==>
      && GroupAddedCalls(groupName) == [AddGroup(groupName + "/one", 50, 3000, 3)]
      && GroupRemovedCalls(groupName) == [RemoveGroup(groupName + "/one")]
      && ClearCalls(groupName) == [Clear(groupName + "/one")]
    ensures var twin := GetOneCollectorGroupName(groupName);
      GroupAddedCalls(twin) == [] && GroupRemovedCalls(twin) == [] && ClearCalls(twin) == []
  {
  }

  // ---------------------------------------------------------------------
  // Epochs and sequence numbers

  /** The epoch and last sequence number given out for one iKey. */
  datatype EpochAndSeq = EpochAndSeq(epoch: string, sequence: int)

  /** Part A SDK extension fields of a Common Schema log. */
  datatype SdkExtension = SdkExtension(libVer: Option<string>, installId: Option<string>,
                                       epoch: Option<string>, sequence: Option<int>)

  /** The parts of a Common Schema log the listener reads or sets. */
  datatype CommonSchemaLog = CommonSchemaLog(iKey: string, sdk: SdkExtension)

  /** One log stamped: the table, the log and the number of UUIDs drawn. */
  datatype Stamping = Stamping(table: map<string, EpochAndSeq>, log: CommonSchemaLog, drawn: nat)

  /** One iteration of onPreparedLog's loop: set the install id; take the
      iKey's entry, creating one with a freshly drawn epoch and sequence 0 if
      there is none; stamp the epoch and the incremented sequence number. */
  function StampLog(installId: string, randomUuid: nat -> string, table: map<string, EpochAndSeq>, drawn: nat,
                    log: CommonSchemaLog): (s: Stamping)
    ensures s.log.iKey == log.iKey && s.log.sdk.libVer == log.sdk.libVer && s.log.sdk.installId == Some(installId)
    ensures log.iKey in s.table && s.table == table[log.iKey := s.table[log.iKey]]
    ensures s.log.sdk.epoch == Some(s.table[log.iKey].epoch) && s.log.sdk.sequence == Some(s.table[log.iKey].sequence)
    ensures log.iKey in table ==>
              s.table[log.iKey] == EpochAndSeq(table[log.iKey].epoch, table[log.iKey].sequence + 1) && s.drawn == drawn
    ensures log.iKey !in table ==> s.table[log.iKey] == EpochAndSeq(randomUuid(drawn), 1) && s.drawn == drawn + 1
  {
    var entry := if log.iKey in table then table[log.iKey] else EpochAndSeq(randomUuid(drawn), 0);
    var next := entry.(sequence := entry.sequence + 1);
    Stamping(
      table[log.iKey := next],
      log.(sdk := log.sdk.(installId := Some(installId), epoch := Some(entry.epoch), sequence := Some(next.sequence))),
      if log.iKey in table then drawn else drawn + 1)
  }

  /** Logs stamped in order, the table after them and the UUIDs drawn. */
  datatype Prepared = Prepared(table: map<string, EpochAndSeq>, logs: seq<CommonSchemaLog>, drawn: nat)

  /** onPreparedLog, specified: the logs stamped one after the other. */
  function PrepareLogs(installId: string, randomUuid: nat -> string, table: map<string, EpochAndSeq>, drawn: nat,
                       logs: seq<CommonSchemaLog>): (r: Prepared)
    ensures |r.logs| == |logs|
  {
    if logs == [] then Prepared(table, [], drawn)
    else
      var before := PrepareLogs(installId, randomUuid, table, drawn, logs[..|logs| - 1]);
      var s := StampLog(installId, randomUuid, before.table, before.drawn, logs[|logs| - 1]);
      Prepared(s.table, before.logs + [s.log], s.drawn)
  }

  /** How many of `logs` have this iKey. */
  function Count(iKey: string, logs: seq<CommonSchemaLog>): nat {
    if logs == [] then 0
    else Count(iKey, logs[..|logs| - 1]) + (if logs[|logs| - 1].iKey == iKey then 1 else 0)
  }

  /** The sequence number an iKey starts from: its table entry's, or 0. */
  function Base(table: map<string, EpochAndSeq>, iKey: string): int {
    if iKey in table then table[iKey].sequence else 0
  }

  /** How many of `logs` are the first with an iKey the table does not
      hold: each of them draws one UUID. */
  function FirstSights(table: map<string, EpochAndSeq>, logs: seq<CommonSchemaLog>): nat {
    if logs == [] then 0
    else
      var init, last := logs[..|logs| - 1], logs[|logs| - 1];
      FirstSights(table, init) + (if last.iKey !in table && Count(last.iKey, init) == 0 then 1 else 0)
  }

  /** After a batch, an iKey has an entry if it had one or the batch has a
      log with it; its sequence number has grown by the number of such logs;
      an existing epoch is kept; an entry the batch does not touch is
      unchanged. */
  lemma {:induction false} PreparedEntry(installId: string, randomUuid: nat -> string, table: map<string, EpochAndSeq>,
                                         drawn: nat, logs: seq<CommonSchemaLog>, key: string)
    ensures var r := PrepareLogs(installId, randomUuid, table, drawn, logs);
      && (key in r.table <==> key in table || Count(key, logs) > 0)
      && (key in r.table ==> r.table[key].sequence == Base(table, key) + Count(key, logs))
      && (key in table ==> r.table[key].epoch == table[key].epoch)
      && (key in table && Count(key, logs) == 0 ==> r.table[key] == table[key])
  {
    if logs != [] {
      PreparedEntry(installId, randomUuid, table, drawn, logs[..|logs| - 1], key);
    }
  }

  /** One UUID is drawn per log that is the first with an iKey the table did
      not hold. */
  lemma {:induction false} PreparedDraws(installId: string, randomUuid: nat -> string, table: map<string, EpochAndSeq>,
                                         drawn: nat, logs: seq<CommonSchemaLog>)
    ensures PrepareLogs(installId, randomUuid, table, drawn, logs).drawn == drawn + FirstSights(table, logs)
  {
    if logs != [] {
      var init, last := logs[..|logs| - 1], logs[|logs| - 1];
      PreparedDraws(installId, randomUuid, table, drawn, init);
      PreparedEntry(installId, randomUuid, table, drawn, init, last.iKey);
    }
  }

  /** Stamping a batch in two parts is stamping it whole. */
  lemma {:induction false} PrepareAppend(installId: string, randomUuid: nat -> string, table: map<string, EpochAndSeq>,
                                         drawn: nat, a: seq<CommonSchemaLog>, b: seq<CommonSchemaLog>)
    ensures var p := PrepareLogs(installId, randomUuid, table, drawn, a);
            var q := PrepareLogs(installId, randomUuid, p.table, p.drawn, b);
      PrepareLogs(installId, randomUuid, table, drawn, a + b) == Prepared(q.table, p.logs + q.logs, q.drawn)
  {
    if b == [] {
      assert a + b == a;
    } else {
      assert (a + b)[..|a + b| - 1] == a + b[..|b| - 1];
      assert (a + b)[|a + b| - 1] == b[|b| - 1];
      PrepareAppend(installId, randomUuid, table, drawn, a, b[..|b| - 1]);
    }
  }

  /** Stamping one more log of a batch. */
  lemma PrepareNext(installId: string, randomUuid: nat -> string, table: map<string, EpochAndSeq>,
                    drawn: nat, logs: seq<CommonSchemaLog>, i: nat)
    requires i < |logs|
    ensures var before := PrepareLogs(installId, randomUuid, table, drawn, logs[..i]);
            var s := StampLog(installId, randomUuid, before.table, before.drawn, logs[i]);
      PrepareLogs(installId, randomUuid, table, drawn, logs[..i + 1]) == Prepared(s.table, before.logs + [s.log], s.drawn)
  {
    assert logs[..i + 1][..i] == logs[..i];
  }

  /** What the last log of a batch carries: the install id, its iKey's
      epoch, and its iKey's starting sequence number plus the number of logs
      with that iKey. */
  lemma LastStamped(installId: string, randomUuid: nat -> string, table: map<string, EpochAndSeq>,
                    drawn: nat, logs: seq<CommonSchemaLog>)
    requires logs != []
    ensures var r := PrepareLogs(installId, randomUuid, table, drawn, logs);
            var n := |logs| - 1;
            var key := logs[n].iKey;
      && r.logs[n].iKey == key && r.logs[n].sdk.libVer == logs[n].sdk.libVer
      && r.logs[n].sdk.installId == Some(installId)
      && key in r.table && r.logs[n].sdk.epoch == Some(r.table[key].epoch)
      && r.logs[n].sdk.sequence == Some(Base(table, key) + Count(key, logs))
  {
    var n := |logs| - 1;
    var key := logs[n].iKey;
    var before := PrepareLogs(installId, randomUuid, table, drawn, logs[..n]);
    var s := StampLog(installId, randomUuid, before.table, before.drawn, logs[n]);
    assert PrepareLogs(installId, randomUuid, table, drawn, logs).logs[n] == s.log;
    PreparedEntry(installId, randomUuid, table, drawn, logs[..n], key);
  }

  /** The last log of a batch, when it is the first with an iKey the table
      did not hold, gets sequence 1 and the next UUID drawn. */
  lemma LastFirstSight(installId: string, randomUuid: nat -> string, table: map<string, EpochAndSeq>,
                       drawn: nat, logs: seq<CommonSchemaLog>)
    requires logs != []
    requires logs[|logs| - 1].iKey !in table && Count(logs[|logs| - 1].iKey, logs[..|logs| - 1]) == 0
    ensures var r := PrepareLogs(installId, randomUuid, table, drawn, logs);
            var n := |logs| - 1;
      && r.logs[n].sdk.sequence == Some(1)
      && r.logs[n].sdk.epoch == Some(randomUuid(drawn + FirstSights(table, logs[..n])))
  {
    var n := |logs| - 1;
    var before := PrepareLogs(installId, randomUuid, table, drawn, logs[..n]);
    var s := StampLog(installId, randomUuid, before.table, before.drawn, logs[n]);
    assert PrepareLogs(installId, randomUuid, table, drawn, logs).logs[n] == s.log;
    PreparedEntry(installId, randomUuid, table, drawn, logs[..n], logs[n].iKey);
    PreparedDraws(installId, randomUuid, table, drawn, logs[..n]);
  }

  /** What the log at position `k` of a batch carries: the install id, the
      table's final epoch for its iKey (so every log of one iKey carries the
      same epoch), and its iKey's starting sequence number plus the count of
      logs with that iKey up to and including it (so they are numbered
      consecutively). */
  lemma {:induction false} StampedLogAt(installId: string, randomUuid: nat -> string, table: map<string, EpochAndSeq>,
                     drawn: nat, logs: seq<CommonSchemaLog>, k: nat)
    requires k < |logs|
    ensures var r := PrepareLogs(installId, randomUuid, table, drawn, logs);
            var key := logs[k].iKey;
            var stamped := r.logs[k];
      && stamped.iKey == key && stamped.sdk.libVer == logs[k].sdk.libVer
      && stamped.sdk.installId == Some(installId)
      && key in r.table && stamped.sdk.epoch == Some(r.table[key].epoch)
      && stamped.sdk.sequence == Some(Base(table, key) + Count(key, logs[..k + 1]))
  {
    var n := |logs| - 1;
    if k == n {
      assert logs[..k + 1] == logs;
      LastStamped(installId, randomUuid, table, drawn, logs);
    } else {
      StampedLogAt(installId, randomUuid, table, drawn, logs[..n], k);
      assert logs[..n][k] == logs[k];
      assert logs[..n][..k + 1] == logs[..k + 1];
      var before := PrepareLogs(installId, randomUuid, table, drawn, logs[..n]);
      var s := StampLog(installId, randomUuid, before.table, before.drawn, logs[n]);
      assert PrepareLogs(installId, randomUuid, table, drawn, logs) == Prepared(s.table, before.logs + [s.log], s.drawn);
      assert (before.logs + [s.log])[k] == before.logs[k];
    }
  }

  /** The first log of an iKey the table did not hold gets sequence 1 and
      the UUID drawn for it; draws are numbered by first sightings, so two
      new iKeys never share a draw. */
  lemma {:induction false} FirstSightAt(installId: string, randomUuid: nat -> string, table: map<string, EpochAndSeq>,
                     drawn: nat, logs: seq<CommonSchemaLog>, k: nat)
    requires k < |logs|
    requires logs[k].iKey !in table && Count(logs[k].iKey, logs[..k]) == 0
    ensures var stamped := PrepareLogs(installId, randomUuid, table, drawn, logs).logs[k];
      && stamped.sdk.sequence == Some(1)
      && stamped.sdk.epoch == Some(randomUuid(drawn + FirstSights(table, logs[..k])))
  {
    var n := |logs| - 1;
    if k == n {
      LastFirstSight(installId, randomUuid, table, drawn, logs);
    } else {
      assert logs[..n][..k] == logs[..k];
      FirstSightAt(installId, randomUuid, table, drawn, logs[..n], k);
    }
  }

  // ---------------------------------------------------------------------
  // The listener

  class OneCollectorChannelListener {
    const installId: string

    /** The UUID source: the `n`-th UUID drawn, counting from 0. */
    const randomUuid: nat -> string

    var epochsAndSeqsByIKey: map<string, EpochAndSeq>
    var uuidsDrawn: nat

    /** Every call made on the channel, in order. */
    var channelCalls: seq<ChannelCall>

    constructor (installId: string, randomUuid: nat -> string)
      ensures this.installId == installId && this.randomUuid == randomUuid
      ensures epochsAndSeqsByIKey == map[] && uuidsDrawn == 0 && channelCalls == []
    {
      this.installId := installId;
      this.randomUuid := randomUuid;
      epochsAndSeqsByIKey := map[];
      uuidsDrawn := 0;
      channelCalls := [];
    }

    /** onPreparedLog, from the converted logs on: stamps them in order and
        returns them stamped. */
    method OnPreparedLog(commonSchemaLogs: seq<CommonSchemaLog>) returns (stamped: seq<CommonSchemaLog>)
      modifies this
      ensures var r := PrepareLogs(installId, randomUuid, old(epochsAndSeqsByIKey), old(uuidsDrawn), commonSchemaLogs);
        stamped == r.logs && epochsAndSeqsByIKey == r.table && uuidsDrawn == r.drawn
      ensures channelCalls == old(channelCalls)
    {
      stamped := [];
      var i := 0;
      while i < |commonSchemaLogs|
        invariant 0 <= i <= |commonSchemaLogs|
        invariant channelCalls == old(channelCalls)
        invariant PrepareLogs(installId, randomUuid, old(epochsAndSeqsByIKey), old(uuidsDrawn), commonSchemaLogs[..i])
                  == Prepared(epochsAndSeqsByIKey, stamped, uuidsDrawn)
      {
        PrepareNext(installId, randomUuid, old(epochsAndSeqsByIKey), old(uuidsDrawn), commonSchemaLogs, i);
        var log := commonSchemaLogs[i];
        var sdk := log.sdk.(installId := Some(installId));
        var epochAndSeq: EpochAndSeq;
        if log.iKey in epochsAndSeqsByIKey {
          epochAndSeq := epochsAndSeqsByIKey[log.iKey];
        } else {
          epochAndSeq := EpochAndSeq(randomUuid(uuidsDrawn), 0);
          uuidsDrawn := uuidsDrawn + 1;
        }
        sdk := sdk.(epoch := Some(epochAndSeq.epoch));
        // The entry is one shared object: putting a new one and then
        // incrementing it in place leaves the map holding the incremented
        // entry, which is what is stored here.
        epochAndSeq := epochAndSeq.(sequence := epochAndSeq.sequence + 1);
        epochsAndSeqsByIKey := epochsAndSeqsByIKey[log.iKey := epochAndSeq];
        sdk := sdk.(sequence := Some(epochAndSeq.sequence));
        stamped := stamped + [log.(sdk := sdk)];
        i := i + 1;
      }
      assert commonSchemaLogs[..i] == commonSchemaLogs;
    }

    /** onGroupAdded. */
    method OnGroupAdded(groupName: string)
      modifies this
      ensures channelCalls == old(channelCalls) + GroupAddedCalls(groupName)
      ensures epochsAndSeqsByIKey == old(epochsAndSeqsByIKey) && uuidsDrawn == old(uuidsDrawn)
    {
      if IsOneCollectorGroup(groupName) {
        return;
      }
      var oneCollectorGroupName := GetOneCollectorGroupName(groupName);
      channelCalls := channelCalls + [AddGroup(oneCollectorGroupName, ONE_COLLECTOR_TRIGGER_COUNT,
                                               ONE_COLLECTOR_TRIGGER_INTERVAL, ONE_COLLECTOR_TRIGGER_MAX_PARALLEL_REQUESTS)];
    }

    /** onGroupRemoved. */
    method OnGroupRemoved(groupName: string)
      modifies this
      ensures channelCalls == old(channelCalls) + GroupRemovedCalls(groupName)
      ensures epochsAndSeqsByIKey == old(epochsAndSeqsByIKey) && uuidsDrawn == old(uuidsDrawn)
    {
      if IsOneCollectorGroup(groupName) {
        return;
      }
      var oneCollectorGroupName := GetOneCollectorGroupName(groupName);
      channelCalls := channelCalls + [RemoveGroup(oneCollectorGroupName)];
    }

    /** onClear. */
    method OnClear(groupName: string)
      modifies this
      ensures channelCalls == old(channelCalls) + ClearCalls(groupName)
      ensures epochsAndSeqsByIKey == old(epochsAndSeqsByIKey) && uuidsDrawn == old(uuidsDrawn)
    {
      if IsOneCollectorGroup(groupName) {
        return;
      }
      var oneCollectorGroupName := GetOneCollectorGroupName(groupName);
      channelCalls := channelCalls + [Clear(oneCollectorGroupName)];
    }
  }
}
