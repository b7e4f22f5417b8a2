/**
 * The alerting-engine capability contract (`notifier.Alertmanager` and the
 * remote extension `remoteAlertmanager`) as seen by a coordinator: the names
 * and arguments of the operations it can invoke, and a log of invocations.
 */
module Notifier {
  import opened Errors

  /** An API payload whose contents the coordinator never inspects. */
  datatype Document = Document(json: string)

  type AlertConfiguration = Document
  type PostableUserConfig = Document
  type GettableStatus = Document
  type PostableSilence = Document
  type GettableSilence = Document
  type GettableSilences = seq<GettableSilence>
  type GettableAlerts = seq<Document>
  type AlertGroups = seq<Document>
  type PostableAlerts = seq<Document>
  type Receiver = Document
  type TestReceiversConfigBodyParams = Document
  type TestReceiversResult = Document
  type TestTemplatesConfigBodyParams = Document
  type TestTemplatesResults = Document

  /** What an engine hands back from a Go call returning `(value, error)`. */
  datatype Reply<+T> = Reply(value: T, err: Outcome)

  /** The two engines a forked coordinator sits in front of. */
  datatype Engine = Internal | Remote

  /** One invocation of an engine operation, with the arguments it was given. */
  datatype Op =
    | ApplyConfig(config: AlertConfiguration)
    | SaveAndApplyConfig(userConfig: PostableUserConfig)
    | SaveAndApplyDefaultConfig
    | GetStatus
    | CreateSilence(silence: Option<PostableSilence>)
    | DeleteSilence(id: string)
    | GetSilence(id: string)
    | ListSilences(filter: seq<string>)
    | GetAlerts(active: bool, silenced: bool, inhibited: bool, filter: seq<string>, receiver: string)
    | GetAlertGroups(active: bool, silenced: bool, inhibited: bool, filter: seq<string>, receiver: string)
    | PutAlerts(alerts: PostableAlerts)
    | GetReceivers
    | TestReceivers(receiversParams: TestReceiversConfigBodyParams)
    | TestTemplate(templateParams: TestTemplatesConfigBodyParams)
    | CleanUp
    | StopAndWait
    | Ready
      // the two operations only the remote engine offers
    | CompareAndSendConfiguration(config: AlertConfiguration)
    | CompareAndSendState

  /** An entry of the invocation log: which engine was asked to do what. */
  datatype Call = Call(engine: Engine, op: Op)

  /** The operations `log` invoked on engine `e`, in order. */
  function OnEngine(log: seq<Call>, e: Engine): (ops: seq<Op>)
    ensures |ops| <= |log|
  {
    if log == [] then []
    else
      var last := log[|log| - 1];
      OnEngine(log[..|log| - 1], e) + (if last.engine == e then [last.op] else [])
  }

  /** One more invocation extends the history of its own engine by its
      operation and leaves the other engine's history as it was. */
  lemma OnEngineAppendOne(log: seq<Call>, c: Call, e: Engine)
    ensures OnEngine(log + [c], e) == OnEngine(log, e) + (if c.engine == e then [c.op] else [])
  {
    assert (log + [c])[..|log|] == log;
  }

  /** The log of invoking `ops` on engine `e`, one after the other. */
  function Tagged(e: Engine, ops: seq<Op>): (log: seq<Call>)
    ensures |log| == |ops|
    ensures forall i :: 0 <= i < |ops| ==> log[i] == Call(e, ops[i])
  {
    seq(|ops|, i requires 0 <= i < |ops| => Call(e, ops[i]))
  }

  /** Invoking `ops` on `e` adds exactly `ops` to the history of `e` and
      nothing to that of the other engine. */
  lemma {:induction false} OnEngineTagged(e: Engine, ops: seq<Op>, other: Engine)
    ensures OnEngine(Tagged(e, ops), other) == if other == e then ops else []
    decreases |ops|
  {
    if ops != [] {
      var init := ops[..|ops| - 1];
      assert Tagged(e, ops)[..|ops| - 1] == Tagged(e, init);
      OnEngineTagged(e, init, other);
      if other == e {
        assert init + [ops[|ops| - 1]] == ops;
      }
    }
  }

  /** The history of a concatenated log is the concatenation of the histories. */
  lemma {:induction false} OnEngineConcat(a: seq<Call>, b: seq<Call>, e: Engine)
    ensures OnEngine(a + b, e) == OnEngine(a, e) + OnEngine(b, e)
    decreases |b|
  {
    if b == [] {
      assert a + b == a;
    } else {
      var b' := b[..|b| - 1];
      assert (a + b)[..|a + b| - 1] == a + b';
      OnEngineConcat(a, b', e);
    }
  }

  /** A batch of invocations on `e` extends the history of `e` by exactly
      that batch and leaves the other engine's history as it was. */
  lemma OnEngineAppendBatch(log: seq<Call>, e: Engine, ops: seq<Op>, other: Engine)
    ensures OnEngine(log + Tagged(e, ops), other) == OnEngine(log, other) + (if other == e then ops else [])
  {
    OnEngineConcat(log, Tagged(e, ops), other);
    OnEngineTagged(e, ops, other);
  }

  /** A batch on `e` followed by one more invocation `c`, as one ApplyConfig
      call of a forked coordinator produces. */
  lemma OnEngineBatchThenOne(log: seq<Call>, e: Engine, ops: seq<Op>, c: Call, other: Engine)
    ensures OnEngine(log + Tagged(e, ops) + [c], other)
            == OnEngine(log, other) + (if other == e then ops else []) + (if other == c.engine then [c.op] else [])
  {
    OnEngineAppendBatch(log, e, ops, other);
    OnEngineAppendOne(log + Tagged(e, ops), c, other);
  }
}
