/**
 * The remote-secondary forked Alertmanager: the internal (local) engine is
 * authoritative, every business call goes to it, and `ApplyConfig` also
 * drives the remote engine towards readiness and keeps it in sync on a timer,
 * never letting a remote error reach the caller.
 */
module Remote {
  import opened Errors
  import opened Notifier

  // ---------------------------------------------------------------------
  // Time

  /** A wall-clock reading, in nanoseconds since Go's zero `time.Time`
      (January 1, year 1, 00:00 UTC). */
  type Time = int

  /** The zero `time.Time`, which an unset `lastSync` holds. */
  const ZeroTime: Time := 0

  const MinDuration: int := -0x8000_0000_0000_0000
  const MaxDuration: int := 0x7FFF_FFFF_FFFF_FFFF

  /** Go's `time.Duration`: a signed 64-bit count of nanoseconds. */
  type Duration = d: int | MinDuration <= d <= MaxDuration

  /** `time.Since(t)` read at `now`, i.e. `now.Sub(t)`: the elapsed time,
      saturated at the bounds of `Duration` as `Time.Sub` does. */
  function Since(now: Time, t: Time): (d: Duration)
    ensures MinDuration <= now - t <= MaxDuration ==> d == now - t
    ensures now - t > MaxDuration ==> d == MaxDuration
    ensures now - t < MinDuration ==> d == MinDuration
  {
    if now - t > MaxDuration then MaxDuration
    else if now - t < MinDuration then MinDuration
    else now - t
  }

  /** Whether a ready remote engine is due for a sync (the interval check of `ApplyConfig`). */
  predicate SyncDue(lastSync: Time, syncInterval: Duration, now: Time)
  {
    Since(now, lastSync) >= syncInterval
  }

  // ---------------------------------------------------------------------
  // Configuration and construction

  /** An injected structured logger; what it writes is not modelled. */
  datatype Logger = Logger(name: string)

  datatype RemoteSecondaryConfig = RemoteSecondaryConfig(
    syncInterval: Duration,  // how often to re-sync the remote engine
    logger: Option<Logger>)  // required

  const LoggerNilError: Error := Error("logger cannot be nil")

  /** `RemoteSecondaryConfig.Validate`: a configuration is rejected exactly
      when it has no logger. */
  function Validate(cfg: RemoteSecondaryConfig): (r: Outcome)
    ensures r.Fail? <==> cfg.logger.None?
    ensures r.Fail? ==> r.error == LoggerNilError
  {
    if cfg.logger.None? then Fail(LoggerNilError) else Pass
  }

  // ---------------------------------------------------------------------
  // The remote-sync routine of ApplyConfig, as a function

  /** What the remote engine answers during one ApplyConfig call. Only the
      answers to the operations the routine actually invokes are consulted. */
  datatype RemoteReplies = RemoteReplies(
    ready: bool,                                // remote.Ready()
    applyConfig: Outcome,                       // remote.ApplyConfig(...)
    compareAndSendConfiguration: Outcome,       // remote.CompareAndSendConfiguration(...)
    compareAndSendState: Outcome)               // remote.CompareAndSendState(...)

  /** The routine's effect: the new `lastSync` and the remote operations invoked, in order. */
  datatype SyncResult = SyncResult(lastSync: Time, remoteCalls: seq<Op>)

  /** Whether the remote side of a call completed: the bootstrap apply of a
      not-ready engine succeeded, or both compare-and-send calls did. */
  predicate RemoteSucceeded(replies: RemoteReplies)
  {
    if !replies.ready then replies.applyConfig.Pass?
    else replies.compareAndSendConfiguration.Pass? && replies.compareAndSendState.Pass?
  }

  /** The remote-sync routine that `ApplyConfig` runs in its own goroutine. */
  function RemoteSync(lastSync: Time, syncInterval: Duration, now: Time,
                      config: AlertConfiguration, replies: RemoteReplies): (r: SyncResult)
    // readiness is probed first, on every call
    ensures |r.remoteCalls| >= 1 && r.remoteCalls[0] == Ready
    // a not-ready engine, and only one, is bootstrapped with ApplyConfig
    ensures ApplyConfig(config) in r.remoteCalls <==> !replies.ready
    // compare-and-send happens, both calls together, exactly when ready and due
    ensures CompareAndSendConfiguration(config) in r.remoteCalls <==> replies.ready && SyncDue(lastSync, syncInterval, now)
    ensures CompareAndSendState in r.remoteCalls <==> replies.ready && SyncDue(lastSync, syncInterval, now)
    // lastSync only ever moves to `now`, and only after the remote work succeeded
    ensures r.lastSync == lastSync || r.lastSync == now
    ensures r.lastSync != lastSync ==> RemoteSucceeded(replies)
    // a ready engine that is not due is left alone and lastSync is kept
    ensures replies.ready && !SyncDue(lastSync, syncInterval, now) ==> r.lastSync == lastSync && r.remoteCalls == [Ready]
  {
    if !replies.ready then
      SyncResult(if replies.applyConfig.Pass? then now else lastSync, [Ready, ApplyConfig(config)])
    else if SyncDue(lastSync, syncInterval, now) then
      var synced := replies.compareAndSendConfiguration.Pass? && replies.compareAndSendState.Pass?;
      SyncResult(if synced then now else lastSync,
                 [Ready, CompareAndSendConfiguration(config), CompareAndSendState])
    else
      SyncResult(lastSync, [Ready])
  }

  /** A not-ready remote engine is bootstrapped with exactly one ApplyConfig
      (and no compare-and-send); lastSync becomes `now` only if that succeeds. */
  lemma NotReadyBootstraps(lastSync: Time, syncInterval: Duration, now: Time,
                           config: AlertConfiguration, replies: RemoteReplies)
    requires !replies.ready
    ensures RemoteSync(lastSync, syncInterval, now, config, replies).remoteCalls == [Ready, ApplyConfig(config)]
    ensures RemoteSync(lastSync, syncInterval, now, config, replies).lastSync
            == if replies.applyConfig.Pass? then now else lastSync
  {
  }

  /** A due sync of a ready engine invokes both compare-and-send calls whatever
      either answers, and advances lastSync exactly when both succeed. */
  lemma DueSyncCallsBoth(lastSync: Time, syncInterval: Duration, now: Time,
                         config: AlertConfiguration, replies: RemoteReplies)
    requires replies.ready && SyncDue(lastSync, syncInterval, now)
    ensures RemoteSync(lastSync, syncInterval, now, config, replies).remoteCalls
            == [Ready, CompareAndSendConfiguration(config), CompareAndSendState]
    ensures RemoteSync(lastSync, syncInterval, now, config, replies).lastSync
            == if replies.compareAndSendConfiguration.Pass? && replies.compareAndSendState.Pass? then now else lastSync
  {
  }

  /** With a zero interval every call on a clock that does not run backwards is due. */
  lemma ZeroIntervalAlwaysDue(lastSync: Time, now: Time)
    requires lastSync <= now
    ensures SyncDue(lastSync, 0, now)
  {
  }

  /** An unset lastSync makes the first ready call due whatever the interval,
      for any clock reading after the year 293 (when the distance from the
      zero time exceeds the largest Duration). */
  lemma FirstReadyCallIsDue(syncInterval: Duration, now: Time)
    requires now - ZeroTime >= MaxDuration
    ensures SyncDue(ZeroTime, syncInterval, now)
  {
  }

  /** A due call whose remote side failed keeps lastSync, so the next call,
      at a later reading of the clock, is due again: it retries both
      compare-and-send calls whatever the interval. */
  lemma FailedSyncRetriedNextCall(lastSync: Time, syncInterval: Duration, now: Time, later: Time,
                                  config: AlertConfiguration, replies: RemoteReplies,
                                  config': AlertConfiguration, replies': RemoteReplies)
    requires replies.ready && SyncDue(lastSync, syncInterval, now)
    requires !RemoteSucceeded(replies)
    requires now <= later && replies'.ready
    ensures RemoteSync(RemoteSync(lastSync, syncInterval, now, config, replies).lastSync,
                       syncInterval, later, config', replies').remoteCalls
            == [Ready, CompareAndSendConfiguration(config'), CompareAndSendState]
  {
    var next := RemoteSync(lastSync, syncInterval, now, config, replies).lastSync;
    assert next == lastSync;
    assert Since(later, lastSync) >= Since(now, lastSync);
  }

  // ---------------------------------------------------------------------
  // A sequence of ApplyConfig calls

  /** What the remote side of one ApplyConfig call depends on: the clock
      reading, the configuration, and what the remote engine answers. */
  datatype ApplyCall = ApplyCall(now: Time, config: AlertConfiguration, remote: RemoteReplies)

  /** The effect of a sequence of ApplyConfig calls on the remote side: the
      final lastSync and the remote engine's history. */
  datatype Session = Session(lastSync: Time, remoteCalls: seq<Op>)

  /** Successive ApplyConfig calls on one coordinator, from `lastSync`. */
  function Replay(lastSync: Time, syncInterval: Duration, calls: seq<ApplyCall>): (s: Session)
    decreases |calls|
  {
    if calls == [] then Session(lastSync, [])
    else
      var before := Replay(lastSync, syncInterval, calls[..|calls| - 1]);
      var c := calls[|calls| - 1];
      var step := RemoteSync(before.lastSync, syncInterval, c.now, c.config, c.remote);
      Session(step.lastSync, before.remoteCalls + step.remoteCalls)
  }

  /** lastSync is either where it started or the clock reading of a call
      whose remote side fully succeeded. */
  lemma {:induction false} ReplayLastSyncFromSuccess(lastSync: Time, syncInterval: Duration, calls: seq<ApplyCall>)
    ensures var s := Replay(lastSync, syncInterval, calls);
            s.lastSync == lastSync ||
            exists i :: 0 <= i < |calls| && s.lastSync == calls[i].now && RemoteSucceeded(calls[i].remote)
    decreases |calls|
  {
    if calls != [] {
      var init := calls[..|calls| - 1];
      ReplayLastSyncFromSuccess(lastSync, syncInterval, init);
      var s := Replay(lastSync, syncInterval, calls);
      var before := Replay(lastSync, syncInterval, init);
      if s.lastSync != before.lastSync {
        assert s.lastSync == calls[|calls| - 1].now;
      } else if before.lastSync != lastSync {
        var i :| 0 <= i < |init| && before.lastSync == init[i].now && RemoteSucceeded(init[i].remote);
        assert calls[i] == init[i];
      }
    }
  }

  /** On a clock that does not run backwards, lastSync never decreases and
      never passes the latest clock reading. */
  lemma {:induction false} ReplayLastSyncMonotone(lastSync: Time, syncInterval: Duration, calls: seq<ApplyCall>)
    requires forall i, j :: 0 <= i < j < |calls| ==> calls[i].now <= calls[j].now
    requires calls != [] ==> lastSync <= calls[0].now
    ensures lastSync <= Replay(lastSync, syncInterval, calls).lastSync
    ensures calls != [] ==> Replay(lastSync, syncInterval, calls).lastSync <= calls[|calls| - 1].now
    decreases |calls|
  {
    if |calls| > 1 {
      ReplayLastSyncMonotone(lastSync, syncInterval, calls[..|calls| - 1]);
    }
  }

  /** The scenario of a ten-minute interval and a remote engine that starts
      not ready: the first call bootstraps it and records the time; the next
      call, a second later with the engine now ready, leaves it alone. */
  lemma BootstrapThenTooSoon(config: AlertConfiguration, t: Time)
    requires t >= MaxDuration
    ensures var first := ApplyCall(t, config, RemoteReplies(false, Pass, Pass, Pass));
            var next := ApplyCall(t + 1_000_000_000, config, RemoteReplies(true, Pass, Pass, Pass));
            var s := Replay(ZeroTime, 600_000_000_000, [first, next]);
            s.lastSync == t &&
            s.remoteCalls == [Ready, ApplyConfig(config), Ready]
  {
    var first := ApplyCall(t, config, RemoteReplies(false, Pass, Pass, Pass));
    var next := ApplyCall(t + 1_000_000_000, config, RemoteReplies(true, Pass, Pass, Pass));
    assert [first, next][..1] == [first];
    assert [first][..0] == [];
    var one := Replay(ZeroTime, 600_000_000_000, [first]);
    assert Replay(ZeroTime, 600_000_000_000, []) == Session(ZeroTime, []);
    assert RemoteSync(ZeroTime, 600_000_000_000, t, config, first.remote) == SyncResult(t, [Ready, ApplyConfig(config)]);
    assert one == Session(t, [Ready, ApplyConfig(config)]);
    assert !SyncDue(t, 600_000_000_000, t + 1_000_000_000);
  }

  // ---------------------------------------------------------------------
  // The coordinator

  class RemoteSecondaryForkedAlertmanager {
    const log: Logger
    const syncInterval: Duration
    /** The time of the last successful sync of the remote engine. */
    var lastSync: Time
    /** Every engine operation this coordinator has invoked, in order. */
    ghost var calls: seq<Call>

    constructor (cfg: RemoteSecondaryConfig)
      requires Validate(cfg).Pass?
      ensures log == cfg.logger.value && syncInterval == cfg.syncInterval
      ensures lastSync == ZeroTime && calls == []
    {
      log := cfg.logger.value;
      syncInterval := cfg.syncInterval;
      lastSync := ZeroTime;
      calls := [];
    }

    /** `NewRemoteSecondaryForkedAlertmanager`: fails with the validation error
        and no coordinator exactly when the configuration has no logger. */
    static method New(cfg: RemoteSecondaryConfig) returns (fam: RemoteSecondaryForkedAlertmanager?, err: Outcome)
      ensures err == Validate(cfg)
      ensures fam == null <==> err.Fail?
      ensures fam != null ==> fresh(fam) && fam.lastSync == ZeroTime && fam.calls == []
                              && fam.syncInterval == cfg.syncInterval && fam.log == cfg.logger.value
    {
      err := Validate(cfg);
      if err.Fail? {
        fam := null;
        return;
      }
      fam := new RemoteSecondaryForkedAlertmanager(cfg);
    }

    /** ApplyConfig: the remote-sync routine runs beside the internal call and
        only decides lastSync; the call returns exactly the internal engine's
        error. Only each engine's own history is fixed, since the two sides run
        concurrently. */
    method ApplyConfig(config: AlertConfiguration, now: Time, remote: RemoteReplies, internal: Outcome)
      returns (err: Outcome)
      modifies this`lastSync, this`calls
      ensures err == internal
      ensures lastSync == RemoteSync(old(lastSync), syncInterval, now, config, remote).lastSync
      ensures OnEngine(calls, Internal) == OnEngine(old(calls), Internal) + [Op.ApplyConfig(config)]
      ensures OnEngine(calls, Remote)
              == OnEngine(old(calls), Remote) + RemoteSync(old(lastSync), syncInterval, now, config, remote).remoteCalls
      ensures |calls| == |old(calls)| + 1 + |RemoteSync(old(lastSync), syncInterval, now, config, remote).remoteCalls|
      ensures calls[..|old(calls)|] == old(calls)
    {
      ghost var calls0 := calls;
      ghost var remoteOps := SyncRemote(config, now, remote);
      // the internal call, whose error is the result
      calls := calls + [Call(Internal, Op.ApplyConfig(config))];
      err := internal;
      OnEngineBatchThenOne(calls0, Remote, remoteOps, Call(Internal, Op.ApplyConfig(config)), Internal);
      OnEngineBatchThenOne(calls0, Remote, remoteOps, Call(Internal, Op.ApplyConfig(config)), Remote);
    }

    /** The goroutine ApplyConfig starts: bootstraps a remote engine that is
        not ready, or re-sends configuration and state once the sync interval
        has elapsed, and records the time only when the remote side succeeded. */
    method SyncRemote(config: AlertConfiguration, now: Time, remote: RemoteReplies)
      returns (ghost remoteOps: seq<Op>)
      modifies this`lastSync, this`calls
      ensures remoteOps == RemoteSync(old(lastSync), syncInterval, now, config, remote).remoteCalls
      ensures lastSync == RemoteSync(old(lastSync), syncInterval, now, config, remote).lastSync
      ensures calls == old(calls) + Tagged(Remote, remoteOps)
    {
      remoteOps := [Op.Ready];
      if !remote.ready {
        remoteOps := remoteOps + [Op.ApplyConfig(config)];
        if remote.applyConfig.Pass? {
          lastSync := now;
        }
      } else if Since(now, lastSync) >= syncInterval {
        remoteOps := remoteOps + [Op.CompareAndSendConfiguration(config)];
        var cfgErr := remote.compareAndSendConfiguration;
        remoteOps := remoteOps + [Op.CompareAndSendState];
        var stateErr := remote.compareAndSendState;
        if cfgErr.Pass? && stateErr.Pass? {
          lastSync := now;
        }
      }
      calls := calls + Tagged(Remote, remoteOps);
    }

    /** Only the internal engine is asked; its error is returned verbatim. */
    method SaveAndApplyConfig(userConfig: PostableUserConfig, internal: Outcome) returns (err: Outcome)
      modifies this`calls
      ensures err == internal
      ensures calls == old(calls) + [Call(Internal, Op.SaveAndApplyConfig(userConfig))]
    {
      calls := calls + [Call(Internal, Op.SaveAndApplyConfig(userConfig))];
      err := internal;
    }

    /** Only the internal engine is asked; its error is returned verbatim. */
    method SaveAndApplyDefaultConfig(internal: Outcome) returns (err: Outcome)
      modifies this`calls
      ensures err == internal
      ensures calls == old(calls) + [Call(Internal, Op.SaveAndApplyDefaultConfig)]
    {
      calls := calls + [Call(Internal, Op.SaveAndApplyDefaultConfig)];
      err := internal;
    }

    method GetStatus(internal: GettableStatus) returns (status: GettableStatus)
      modifies this`calls
      ensures status == internal
      ensures calls == old(calls) + [Call(Internal, Op.GetStatus)]
    {
      calls := calls + [Call(Internal, Op.GetStatus)];
      status := internal;
    }

    method CreateSilence(silence: Option<PostableSilence>, internal: Reply<string>) returns (id: string, err: Outcome)
      modifies this`calls
      ensures id == internal.value && err == internal.err
      ensures calls == old(calls) + [Call(Internal, Op.CreateSilence(silence))]
    {
      calls := calls + [Call(Internal, Op.CreateSilence(silence))];
      id, err := internal.value, internal.err;
    }

    method DeleteSilence(id: string, internal: Outcome) returns (err: Outcome)
      modifies this`calls
      ensures err == internal
      ensures calls == old(calls) + [Call(Internal, Op.DeleteSilence(id))]
    {
      calls := calls + [Call(Internal, Op.DeleteSilence(id))];
      err := internal;
    }

    method GetSilence(id: string, internal: Reply<GettableSilence>) returns (silence: GettableSilence, err: Outcome)
      modifies this`calls
      ensures silence == internal.value && err == internal.err
      ensures calls == old(calls) + [Call(Internal, Op.GetSilence(id))]
    {
      calls := calls + [Call(Internal, Op.GetSilence(id))];
      silence, err := internal.value, internal.err;
    }

    method ListSilences(filter: seq<string>, internal: Reply<GettableSilences>) returns (silences: GettableSilences, err: Outcome)
      modifies this`calls
      ensures silences == internal.value && err == internal.err
      ensures calls == old(calls) + [Call(Internal, Op.ListSilences(filter))]
    {
      calls := calls + [Call(Internal, Op.ListSilences(filter))];
      silences, err := internal.value, internal.err;
    }

    method GetAlerts(active: bool, silenced: bool, inhibited: bool, filter: seq<string>, receiver: string,
                     internal: Reply<GettableAlerts>) returns (alerts: GettableAlerts, err: Outcome)
      modifies this`calls
      ensures alerts == internal.value && err == internal.err
      ensures calls == old(calls) + [Call(Internal, Op.GetAlerts(active, silenced, inhibited, filter, receiver))]
    {
      calls := calls + [Call(Internal, Op.GetAlerts(active, silenced, inhibited, filter, receiver))];
      alerts, err := internal.value, internal.err;
    }

    method GetAlertGroups(active: bool, silenced: bool, inhibited: bool, filter: seq<string>, receiver: string,
                          internal: Reply<AlertGroups>) returns (groups: AlertGroups, err: Outcome)
      modifies this`calls
      ensures groups == internal.value && err == internal.err
      ensures calls == old(calls) + [Call(Internal, Op.GetAlertGroups(active, silenced, inhibited, filter, receiver))]
    {
      calls := calls + [Call(Internal, Op.GetAlertGroups(active, silenced, inhibited, filter, receiver))];
      groups, err := internal.value, internal.err;
    }

    method PutAlerts(alerts: PostableAlerts, internal: Outcome) returns (err: Outcome)
      modifies this`calls
      ensures err == internal
      ensures calls == old(calls) + [Call(Internal, Op.PutAlerts(alerts))]
    {
      calls := calls + [Call(Internal, Op.PutAlerts(alerts))];
      err := internal;
    }

    method GetReceivers(internal: Reply<seq<Receiver>>) returns (receivers: seq<Receiver>, err: Outcome)
      modifies this`calls
      ensures receivers == internal.value && err == internal.err
      ensures calls == old(calls) + [Call(Internal, Op.GetReceivers)]
    {
      calls := calls + [Call(Internal, Op.GetReceivers)];
      receivers, err := internal.value, internal.err;
    }

    method TestReceivers(receiversParams: TestReceiversConfigBodyParams, internal: Reply<Option<TestReceiversResult>>)
      returns (result: Option<TestReceiversResult>, err: Outcome)
      modifies this`calls
      ensures result == internal.value && err == internal.err
      ensures calls == old(calls) + [Call(Internal, Op.TestReceivers(receiversParams))]
    {
      calls := calls + [Call(Internal, Op.TestReceivers(receiversParams))];
      result, err := internal.value, internal.err;
    }

    method TestTemplate(templateParams: TestTemplatesConfigBodyParams, internal: Reply<Option<TestTemplatesResults>>)
      returns (result: Option<TestTemplatesResults>, err: Outcome)
      modifies this`calls
      ensures result == internal.value && err == internal.err
      ensures calls == old(calls) + [Call(Internal, Op.TestTemplate(templateParams))]
    {
      calls := calls + [Call(Internal, Op.TestTemplate(templateParams))];
      result, err := internal.value, internal.err;
    }

    /** There is nothing to clean up on the remote engine. */
    method CleanUp()
      modifies this`calls
      ensures calls == old(calls) + [Call(Internal, Op.CleanUp)]
    {
      calls := calls + [Call(Internal, Op.CleanUp)];
    }

    /** Stops the internal engine, then the remote one; nothing is sent to the
        remote engine on the way down. */
    method StopAndWait()
      modifies this`calls
      ensures calls == old(calls) + [Call(Internal, Op.StopAndWait), Call(Remote, Op.StopAndWait)]
    {
      calls := calls + [Call(Internal, Op.StopAndWait)];
      calls := calls + [Call(Remote, Op.StopAndWait)];
    }

    /** The coordinator is ready exactly when the internal engine is; the
        remote engine is not consulted. */
    method Ready(internal: bool) returns (ready: bool)
      modifies this`calls
      ensures ready == internal
      ensures calls == old(calls) + [Call(Internal, Op.Ready)]
    {
      calls := calls + [Call(Internal, Op.Ready)];
      ready := internal;
    }
  }
}
