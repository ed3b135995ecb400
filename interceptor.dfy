/**
 * LogRecordInterceptor: the rules that turn the declared templates of each
 * LogRecordOps into audit records around one intercepted call. Expression
 * evaluation (processTemplate / parseBatchTemplate, inherited from a parser
 * that is not part of this model) is an `Evaluator` given as input; the
 * operator service is the text it answers; persistence is the `Step` list
 * the methods return, one entry per operation.
 */
module Interceptor {
  import opened Wrappers
  import opened Strings
  import opened Beans
  import OperationSource

  /**
   * The expression evaluator of one invocation, already bound to its context
   * (arguments, return value, error message, before-call function results):
   * `single` resolves a template, `atIndex` resolves a template against the
   * i-th element of a batch, and `batchSize` is the size of the collection a
   * batch key (bizNo) expression yields.
   */
  datatype Evaluator = Evaluator(
    single: string -> string,
    atIndex: (string, nat) -> string,
    batchSize: string -> nat)

  /** IllegalArgumentException("[LogRecord] operator is null"). */
  datatype LogError = OperatorIsNull

  /** What handling one operation did: nothing, failed (caught and logged),
      bizLogService.record(record), or bizLogService.batchRecord(records). */
  datatype Step =
    | Skipped
    | Failed(error: LogError)
    | Recorded(record: LogRecord)
    | BatchRecorded(records: seq<LogRecord>)

  /** The outcome of invoker.proceed(): a value, an Exception, or another
      Throwable (an Error), which the interceptor does not catch. */
  datatype CallOutcome =
    | Returned(value: string)
    | ThrewException(message: string)
    | ThrewError(message: string)

  // ---------------------------------------------------------------------------
  // Templates

  /** getActionContent: the success template after a successful call, the fail template otherwise. */
  function GetActionContent(success: bool, op: LogRecordOps): (action: string)
    ensures action == if success then op.successLogTemplate else op.failLogTemplate
  {
    if success then op.successLogTemplate else op.failLogTemplate
  }

  /** The templates of the shared fields plus the action, in the order getSpElTemplates lists them. */
  function FieldTemplates(op: LogRecordOps, action: string): seq<string> {
    [op.logType, op.bizNo, op.subBizNo, action, op.extra, op.detail]
      + (if IsEmpty(op.condition) then [] else [op.condition])
  }

  /** getSpElTemplates: the distinct templates to evaluate for one operation. */
  function GetSpElTemplates(op: LogRecordOps, action: string): (templates: seq<string>)
    ensures NoDuplicates(templates)
    ensures forall t :: t in templates <==>
      t in [op.logType, op.bizNo, op.subBizNo, action, op.extra, op.detail]
      || (!IsEmpty(op.condition) && t == op.condition)
  {
    Distinct(FieldTemplates(op, action))
  }

  /** The templates handed to the before-call function phase: each operation's templates built
      around its success template, concatenated in operation order. */
  function BeforeCallTemplates(ops: seq<LogRecordOps>): seq<string> {
    if ops == [] then []
    else
      var last := ops[|ops| - 1];
      BeforeCallTemplates(ops[..|ops| - 1]) + GetSpElTemplates(last, last.successLogTemplate)
  }

  /** getBeforeExecuteFunctionTemplate. */
  method GetBeforeExecuteFunctionTemplate(ops: seq<LogRecordOps>) returns (templates: seq<string>)
    ensures templates == BeforeCallTemplates(ops)
  {
    templates := [];
    for i := 0 to |ops|
      invariant templates == BeforeCallTemplates(ops[..i])
    {
      var opTemplates := GetSpElTemplates(ops[i], ops[i].successLogTemplate);
      if |opTemplates| > 0 {
        templates := templates + opTemplates;
      }
      assert ops[..i + 1][..i] == ops[..i];
    }
    assert ops[..|ops|] == ops;
  }

  /** A template is handed to the before-call function phase exactly when it
      is a shared field or the success template of some operation: a fail
      template gets there only if it coincides with one of those. */
  lemma {:induction false} BeforeCallTemplatesAreSuccessPath(ops: seq<LogRecordOps>, t: string)
    ensures t in BeforeCallTemplates(ops) <==>
      exists i :: 0 <= i < |ops| &&
        (t in [ops[i].logType, ops[i].bizNo, ops[i].subBizNo, ops[i].successLogTemplate, ops[i].extra, ops[i].detail]
         || (!IsEmpty(ops[i].condition) && t == ops[i].condition))
  {
    if ops != [] {
      var init := ops[..|ops| - 1];
      BeforeCallTemplatesAreSuccessPath(init, t);
      assert forall i :: 0 <= i < |init| ==> init[i] == ops[i];
    }
  }

  // ---------------------------------------------------------------------------
  // Operator

  /** The operator id the service supplies, or "" when the operator expression is to be evaluated. */
  function ResolveOperator(op: LogRecordOps, serviceOperatorId: string): Result<string, LogError> {
    if IsEmpty(op.operatorId) then
      if IsEmpty(serviceOperatorId) then Failure(OperatorIsNull) else Success(serviceOperatorId)
    else Success("")
  }

  /** The template list after the operator expression has been appended, if there is one. */
  function WithOperatorTemplate(op: LogRecordOps, templates: seq<string>): seq<string> {
    if IsEmpty(op.operatorId) then templates else templates + [op.operatorId]
  }

  /** getOperatorIdFromServiceAndPutTemplate: consults the operator service only
      when the operator expression is empty; otherwise answers "" and appends
      the expression to the templates to evaluate. */
  method GetOperatorIdFromServiceAndPutTemplate(op: LogRecordOps, serviceOperatorId: string, templates: seq<string>)
    returns (r: Result<string, LogError>, templates': seq<string>)
    ensures IsEmpty(op.operatorId) && IsEmpty(serviceOperatorId) ==> r == Failure(OperatorIsNull)
    ensures IsEmpty(op.operatorId) && !IsEmpty(serviceOperatorId) ==> r == Success(serviceOperatorId)
    ensures IsEmpty(op.operatorId) ==> templates' == templates
    ensures !IsEmpty(op.operatorId) ==> r == Success("") && templates' == templates + [op.operatorId]
    ensures r == ResolveOperator(op, serviceOperatorId) && templates' == WithOperatorTemplate(op, templates)
  {
    var realOperatorId := "";
    templates' := templates;
    if IsEmpty(op.operatorId) {
      realOperatorId := serviceOperatorId;
      if IsEmpty(realOperatorId) {
        return Failure(OperatorIsNull), templates';
      }
    } else {
      templates' := templates' + [op.operatorId];
    }
    r := Success(realOperatorId);
  }

  /** getRealOperatorId: the service's operator when there is one, else the
      evaluated operator expression. */
  function GetRealOperatorId(op: LogRecordOps, operatorFromService: string, values: map<string, string>): (operator: string)
    requires !IsEmpty(operatorFromService) || op.operatorId in values
    ensures !IsEmpty(operatorFromService) ==> operator == operatorFromService
    ensures IsEmpty(operatorFromService) ==> operator == values[op.operatorId]
  {
    if !IsEmpty(operatorFromService) then operatorFromService else values[op.operatorId]
  }

  // ---------------------------------------------------------------------------
  // Single mode

  /** processTemplate: every template evaluated once, keyed by its text. */
  function ProcessTemplate(templates: seq<string>, eval: string -> string): (values: map<string, string>)
    ensures forall t :: t in values <==> t in templates
  {
    map t | t in templates :: eval(t)
  }

  /** logConditionPassed: no condition, or its value ends with "true" ignoring case. */
  function LogConditionPassed(condition: string, values: map<string, string>): bool {
    IsEmpty(condition) || (condition in values && EndsWithIgnoreCase(values[condition], "true"))
  }

  /** The condition gate: no condition always passes; otherwise the
      condition's value must end in "true", in any letter case, and a
      condition without a value does not pass. */
  lemma LogConditionCases(condition: string, values: map<string, string>)
    ensures IsEmpty(condition) ==> LogConditionPassed(condition, values)
    ensures !IsEmpty(condition) && condition !in values ==> !LogConditionPassed(condition, values)
    ensures !IsEmpty(condition) && condition in values && values[condition] == "TRUE" ==> LogConditionPassed(condition, values)
    ensures !IsEmpty(condition) && condition in values && values[condition] == "false" ==> !LogConditionPassed(condition, values)
    ensures !IsEmpty(condition) && condition in values && |values[condition]| < 4 ==> !LogConditionPassed(condition, values)
  {
    EndsWithIgnoreCaseExamples();
  }

  predicate SingleKeysPresent(op: LogRecordOps, action: string, operatorFromService: string, values: map<string, string>) {
    && op.logType in values && op.bizNo in values && op.subBizNo in values
    && action in values && op.extra in values && op.detail in values
    && (!IsEmpty(operatorFromService) || op.operatorId in values)
  }

  /** The single-mode branch of recordExecute, after the operator is resolved. */
  function SingleStep(op: LogRecordOps, action: string, success: bool, operatorFromService: string, values: map<string, string>): Step
    requires SingleKeysPresent(op, action, operatorFromService, values)
  {
    if !LogConditionPassed(op.condition, values) then Skipped
    else
      var record := LogRecord(
        logType := values[op.logType],
        bizNo := values[op.bizNo],
        operator := GetRealOperatorId(op, operatorFromService, values),
        subBizNo := values[op.subBizNo],
        extra := values[op.extra],
        action := values[action],
        fail := !success,
        actionType := op.actionType,
        detail := values[op.detail]);
      if IsEmpty(record.action) then Skipped
      else if record.actionType == "UPDATE" && Contains(record.detail, DiffIsNull) then Skipped
      else Recorded(record)
  }

  // ---------------------------------------------------------------------------
  // Batch mode

  /** parseBatchTemplate: every template evaluated once per element of the
      collection the bizNo expression yields, as index-aligned sequences. */
  function ParseBatchTemplate(templates: seq<string>, ev: Evaluator, bizNo: string): (values: map<string, seq<string>>)
    ensures forall t :: t in values <==> t in templates
    ensures Aligned(values, ev.batchSize(bizNo))
  {
    map t | t in templates :: seq(ev.batchSize(bizNo), i requires 0 <= i => ev.atIndex(t, i))
  }

  predicate Aligned(values: map<string, seq<string>>, n: nat) {
    forall t :: t in values ==> |values[t]| == n
  }

  predicate BatchKeysPresent(op: LogRecordOps, action: string, operatorFromService: string, values: map<string, seq<string>>) {
    && op.logType in values && op.bizNo in values && op.subBizNo in values
    && action in values && op.extra in values && op.detail in values
    && (!IsEmpty(op.condition) ==> op.condition in values)
    && (!IsEmpty(operatorFromService) || op.operatorId in values)
  }

  /** The stream's first filter, for element x. */
  predicate ConditionPassedAt(condition: string, values: map<string, seq<string>>, n: nat, x: nat)
    requires Aligned(values, n) && x < n
    requires !IsEmpty(condition) ==> condition in values
  {
    IsEmpty(condition) || EndsWithIgnoreCase(values[condition][x], "true")
  }

  /** The batch filter applies the single-mode condition test to the values
      of element x. */
  lemma ConditionPassedAtIsLogCondition(condition: string, values: map<string, seq<string>>, n: nat, x: nat)
    requires Aligned(values, n) && x < n
    requires !IsEmpty(condition) ==> condition in values
    ensures ConditionPassedAt(condition, values, n, x)
        <==> LogConditionPassed(condition, map t | t in values :: values[t][x])
  {
  }

  /** IntStream.range(from, n).filter(condition), ascending. */
  function ConditionIndices(condition: string, values: map<string, seq<string>>, n: nat, from: nat): (xs: seq<nat>)
    requires Aligned(values, n)
    requires !IsEmpty(condition) ==> condition in values
    ensures forall k :: 0 <= k < |xs| ==> from <= xs[k] < n
    decreases n - from
  {
    if from >= n then []
    else
      (if ConditionPassedAt(condition, values, n, from) then [from] else [])
      + ConditionIndices(condition, values, n, from + 1)
  }

  /** The stream's map: the record for element x. */
  function BatchRecordAt(op: LogRecordOps, action: string, success: bool, operatorFromService: string,
                         values: map<string, seq<string>>, n: nat, x: nat): LogRecord
    requires Aligned(values, n) && x < n
    requires BatchKeysPresent(op, action, operatorFromService, values)
  {
    LogRecord(
      logType := values[op.logType][x],
      bizNo := values[op.bizNo][x],
      operator := if !IsEmpty(operatorFromService) then operatorFromService else values[op.operatorId][x],
      subBizNo := values[op.subBizNo][x],
      extra := values[op.extra][x],
      action := values[action][x],
      fail := !success,
      actionType := op.actionType,
      detail := values[op.detail][x])
  }

  function BatchRecordsAt(op: LogRecordOps, action: string, success: bool, operatorFromService: string,
                          values: map<string, seq<string>>, n: nat, xs: seq<nat>): (records: seq<LogRecord>)
    requires Aligned(values, n) && forall k :: 0 <= k < |xs| ==> xs[k] < n
    requires BatchKeysPresent(op, action, operatorFromService, values)
    ensures |records| == |xs|
  {
    seq(|xs|, k requires 0 <= k < |xs| => BatchRecordAt(op, action, success, operatorFromService, values, n, xs[k]))
  }

  /** The stream's last filter: drop records whose action is empty. */
  function DropEmptyActions(records: seq<LogRecord>): (kept: seq<LogRecord>)
    ensures |kept| <= |records|
  {
    if records == [] then []
    else (if IsEmpty(records[0].action) then [] else [records[0]]) + DropEmptyActions(records[1..])
  }

  /** The batch branch of recordExecute: filter on the condition, build, drop empty actions. */
  function BatchRecords(op: LogRecordOps, action: string, success: bool, operatorFromService: string,
                        values: map<string, seq<string>>, n: nat): seq<LogRecord>
    requires Aligned(values, n)
    requires BatchKeysPresent(op, action, operatorFromService, values)
  {
    DropEmptyActions(BatchRecordsAt(op, action, success, operatorFromService, values, n,
      ConditionIndices(op.condition, values, n, 0)))
  }

  /** The indices in [from, n) that pass the condition and have a non-empty action. */
  function KeptIndices(op: LogRecordOps, action: string, values: map<string, seq<string>>, n: nat, from: nat): (xs: seq<nat>)
    requires Aligned(values, n) && action in values
    requires !IsEmpty(op.condition) ==> op.condition in values
    ensures forall k :: 0 <= k < |xs| ==> from <= xs[k] < n
    decreases n - from
  {
    if from >= n then []
    else
      (if ConditionPassedAt(op.condition, values, n, from) && !IsEmpty(values[action][from]) then [from] else [])
      + KeptIndices(op, action, values, n, from + 1)
  }

  predicate Ascending(xs: seq<nat>) {
    forall k, l :: 0 <= k < l < |xs| ==> xs[k] < xs[l]
  }

  lemma {:induction false} KeptIndicesAscending(op: LogRecordOps, action: string, values: map<string, seq<string>>, n: nat, from: nat)
    requires Aligned(values, n) && action in values
    requires !IsEmpty(op.condition) ==> op.condition in values
    ensures Ascending(KeptIndices(op, action, values, n, from))
    decreases n - from
  {
    if from < n {
      KeptIndicesAscending(op, action, values, n, from + 1);
      var tail := KeptIndices(op, action, values, n, from + 1);
      var head: seq<nat> :=
        if ConditionPassedAt(op.condition, values, n, from) && !IsEmpty(values[action][from]) then [from] else [];
      assert KeptIndices(op, action, values, n, from) == head + tail;
      var xs := head + tail;
      forall k, l | 0 <= k < l < |xs|
        ensures xs[k] < xs[l]
      {
        if k < |head| {
          assert xs[k] == from && xs[l] == tail[l - |head|];
          assert from + 1 <= tail[l - |head|];
        } else {
          assert xs[k] == tail[k - |head|] && xs[l] == tail[l - |head|];
          assert tail[k - |head|] < tail[l - |head|];
        }
      }
    }
  }

  lemma {:induction false} KeptIndicesMembers(op: LogRecordOps, action: string, values: map<string, seq<string>>, n: nat, from: nat)
    requires Aligned(values, n) && action in values
    requires !IsEmpty(op.condition) ==> op.condition in values
    ensures var xs := KeptIndices(op, action, values, n, from);
      && (forall x :: x in xs <==>
            from <= x < n && ConditionPassedAt(op.condition, values, n, x) && !IsEmpty(values[action][x]))
      && |xs| <= if from <= n then n - from else 0
    decreases n - from
  {
    if from < n {
      KeptIndicesMembers(op, action, values, n, from + 1);
      var tail := KeptIndices(op, action, values, n, from + 1);
      var head: seq<nat> :=
        if ConditionPassedAt(op.condition, values, n, from) && !IsEmpty(values[action][from]) then [from] else [];
      assert KeptIndices(op, action, values, n, from) == head + tail;
    }
  }

  /** The kept indices strictly ascend, and an index is kept exactly when it
      is in range, passes the condition and has a non-empty action. */
  lemma KeptIndicesFacts(op: LogRecordOps, action: string, values: map<string, seq<string>>, n: nat, from: nat)
    requires Aligned(values, n) && action in values
    requires !IsEmpty(op.condition) ==> op.condition in values
    ensures var xs := KeptIndices(op, action, values, n, from);
      && (forall k, l :: 0 <= k < l < |xs| ==> xs[k] < xs[l])
      && (forall x :: x in xs <==>
            from <= x < n && ConditionPassedAt(op.condition, values, n, x) && !IsEmpty(values[action][x]))
      && |xs| <= if from <= n then n - from else 0
  {
    KeptIndicesAscending(op, action, values, n, from);
    KeptIndicesMembers(op, action, values, n, from);
  }

  lemma {:induction false} DropEmptyActionsConcat(a: seq<LogRecord>, b: seq<LogRecord>)
    ensures DropEmptyActions(a + b) == DropEmptyActions(a) + DropEmptyActions(b)
  {
    if a != [] {
      assert (a + b)[1..] == a[1..] + b;
      DropEmptyActionsConcat(a[1..], b);
    } else {
      assert a + b == b;
    }
  }

  lemma BatchRecordsAtConcat(op: LogRecordOps, action: string, success: bool, operatorFromService: string,
                             values: map<string, seq<string>>, n: nat, xs: seq<nat>, ys: seq<nat>)
    requires Aligned(values, n)
    requires forall k :: 0 <= k < |xs| ==> xs[k] < n
    requires forall k :: 0 <= k < |ys| ==> ys[k] < n
    requires BatchKeysPresent(op, action, operatorFromService, values)
    ensures BatchRecordsAt(op, action, success, operatorFromService, values, n, xs + ys)
         == BatchRecordsAt(op, action, success, operatorFromService, values, n, xs)
          + BatchRecordsAt(op, action, success, operatorFromService, values, n, ys)
  {
  }

  /** One index through the pipeline: dropping the built record when its
      action is empty is keeping the index only when its action is non-empty. */
  lemma DropEmptyActionAt(op: LogRecordOps, action: string, success: bool, operatorFromService: string,
                          values: map<string, seq<string>>, n: nat, x: nat, passed: bool)
    requires Aligned(values, n) && x < n
    requires BatchKeysPresent(op, action, operatorFromService, values)
    ensures DropEmptyActions(BatchRecordsAt(op, action, success, operatorFromService, values, n, if passed then [x] else []))
         == BatchRecordsAt(op, action, success, operatorFromService, values, n,
              if passed && !IsEmpty(values[action][x]) then [x] else [])
  {
    if passed {
      var built := BatchRecordsAt(op, action, success, operatorFromService, values, n, [x]);
      assert built == [BatchRecordAt(op, action, success, operatorFromService, values, n, x)];
      assert DropEmptyActions(built) == (if IsEmpty(built[0].action) then [] else [built[0]]) + DropEmptyActions([]);
    }
  }

  /** The pipeline over [from, n) splits into the element `from` and the rest. */
  lemma ConditionPipelineSplit(op: LogRecordOps, action: string, success: bool, operatorFromService: string,
                               values: map<string, seq<string>>, n: nat, from: nat)
    requires Aligned(values, n) && from < n
    requires BatchKeysPresent(op, action, operatorFromService, values)
    ensures DropEmptyActions(BatchRecordsAt(op, action, success, operatorFromService, values, n,
              ConditionIndices(op.condition, values, n, from)))
         == DropEmptyActions(BatchRecordsAt(op, action, success, operatorFromService, values, n,
              if ConditionPassedAt(op.condition, values, n, from) then [from] else []))
          + DropEmptyActions(BatchRecordsAt(op, action, success, operatorFromService, values, n,
              ConditionIndices(op.condition, values, n, from + 1)))
  {
    var head: seq<nat> := if ConditionPassedAt(op.condition, values, n, from) then [from] else [];
    var tail := ConditionIndices(op.condition, values, n, from + 1);
    assert ConditionIndices(op.condition, values, n, from) == head + tail;
    BatchRecordsAtConcat(op, action, success, operatorFromService, values, n, head, tail);
    DropEmptyActionsConcat(BatchRecordsAt(op, action, success, operatorFromService, values, n, head),
                           BatchRecordsAt(op, action, success, operatorFromService, values, n, tail));
  }

  /** The records of the kept indices of [from, n) split the same way. */
  lemma KeptRecordsSplit(op: LogRecordOps, action: string, success: bool, operatorFromService: string,
                         values: map<string, seq<string>>, n: nat, from: nat)
    requires Aligned(values, n) && from < n
    requires BatchKeysPresent(op, action, operatorFromService, values)
    ensures BatchRecordsAt(op, action, success, operatorFromService, values, n, KeptIndices(op, action, values, n, from))
         == BatchRecordsAt(op, action, success, operatorFromService, values, n,
              if ConditionPassedAt(op.condition, values, n, from) && !IsEmpty(values[action][from]) then [from] else [])
          + BatchRecordsAt(op, action, success, operatorFromService, values, n, KeptIndices(op, action, values, n, from + 1))
  {
    var keptHead: seq<nat> := if ConditionPassedAt(op.condition, values, n, from) && !IsEmpty(values[action][from]) then [from] else [];
    var keptTail := KeptIndices(op, action, values, n, from + 1);
    assert KeptIndices(op, action, values, n, from) == keptHead + keptTail;
    BatchRecordsAtConcat(op, action, success, operatorFromService, values, n, keptHead, keptTail);
  }

  /** filter(condition).map(build).filter(non-empty action) builds the record of
      each kept index, in ascending index order. */
  lemma {:induction false} BatchRecordsFromKeptIndices(op: LogRecordOps, action: string, success: bool, operatorFromService: string,
                                                       values: map<string, seq<string>>, n: nat, from: nat)
    requires Aligned(values, n)
    requires BatchKeysPresent(op, action, operatorFromService, values)
    ensures DropEmptyActions(BatchRecordsAt(op, action, success, operatorFromService, values, n,
              ConditionIndices(op.condition, values, n, from)))
         == BatchRecordsAt(op, action, success, operatorFromService, values, n, KeptIndices(op, action, values, n, from))
    decreases n - from
  {
    if from < n {
      BatchRecordsFromKeptIndices(op, action, success, operatorFromService, values, n, from + 1);
      ConditionPipelineSplit(op, action, success, operatorFromService, values, n, from);
      KeptRecordsSplit(op, action, success, operatorFromService, values, n, from);
      DropEmptyActionAt(op, action, success, operatorFromService, values, n, from,
        ConditionPassedAt(op.condition, values, n, from));
    }
  }

  // ---------------------------------------------------------------------------
  // One operation, all operations, the call

  /** What recordExecute does for one operation. */
  function OperationStep(op: LogRecordOps, success: bool, serviceOperatorId: string, ev: Evaluator): Step {
    var action := GetActionContent(success, op);
    if IsEmpty(action) then Skipped
    else
      var templates := GetSpElTemplates(op, action);
      match ResolveOperator(op, serviceOperatorId)
      case Failure(e) => Failed(e)
      case Success(operatorFromService) =>
        var all := WithOperatorTemplate(op, templates);
        if op.isBatch then
          var values := ParseBatchTemplate(all, ev, op.bizNo);
          BatchRecorded(BatchRecords(op, action, success, operatorFromService, values, ev.batchSize(op.bizNo)))
        else
          SingleStep(op, action, success, operatorFromService, ProcessTemplate(all, ev.single))
  }

  /** An empty action template skips the operation before anything else:
      whatever the operator service answers and in both modes, nothing is
      recorded and nothing fails. */
  lemma EmptyActionSkipped(op: LogRecordOps, success: bool, serviceOperatorId: string, ev: Evaluator)
    requires IsEmpty(GetActionContent(success, op))
    ensures OperationStep(op, success, serviceOperatorId, ev) == Skipped
  {
  }

  /** Operator resolution inside one operation: an empty operator expression
      with no operator from the service fails the operation; otherwise the
      record's operator is the service's when the expression is empty, and
      the evaluated expression when it is not (the service is not consulted). */
  lemma OperatorPrecedence(op: LogRecordOps, success: bool, serviceOperatorId: string, ev: Evaluator)
    requires !IsEmpty(GetActionContent(success, op))
    ensures var step := OperationStep(op, success, serviceOperatorId, ev);
      && (IsEmpty(op.operatorId) && IsEmpty(serviceOperatorId) <==> step == Failed(OperatorIsNull))
      && (step.Recorded? ==>
            step.record.operator == if IsEmpty(op.operatorId) then serviceOperatorId else ev.single(op.operatorId))
  {
  }

  /** Single mode records exactly when the action template, the condition, the
      resolved action and the no-change check allow it, and then records the
      evaluated fields with fail == !success. */
  lemma SingleModeRecords(op: LogRecordOps, success: bool, serviceOperatorId: string, ev: Evaluator)
    requires !op.isBatch
    requires !IsEmpty(op.operatorId) || !IsEmpty(serviceOperatorId)
    ensures var action := GetActionContent(success, op);
      var step := OperationStep(op, success, serviceOperatorId, ev);
      && (step.Recorded? || step == Skipped)
      && (step.Recorded? <==>
            && !IsEmpty(action)
            && (IsEmpty(op.condition) || EndsWithIgnoreCase(ev.single(op.condition), "true"))
            && !IsEmpty(ev.single(action))
            && !(op.actionType == "UPDATE" && Contains(ev.single(op.detail), DiffIsNull)))
      && (step.Recorded? ==> step.record == LogRecord(
            logType := ev.single(op.logType),
            bizNo := ev.single(op.bizNo),
            operator := if IsEmpty(op.operatorId) then serviceOperatorId else ev.single(op.operatorId),
            subBizNo := ev.single(op.subBizNo),
            extra := ev.single(op.extra),
            action := ev.single(action),
            fail := !success,
            actionType := op.actionType,
            detail := ev.single(op.detail)))
  {
    var action := GetActionContent(success, op);
    if !IsEmpty(action) {
      var all := WithOperatorTemplate(op, GetSpElTemplates(op, action));
      var values := ProcessTemplate(all, ev.single);
      assert op.condition != "" ==> op.condition in all;
      assert forall t :: t in values ==> values[t] == ev.single(t);
    }
  }

  /** The evaluated batch values of an operation whose operator is resolved. */
  function BatchValues(op: LogRecordOps, action: string, serviceOperatorId: string, ev: Evaluator): map<string, seq<string>> {
    ParseBatchTemplate(WithOperatorTemplate(op, GetSpElTemplates(op, action)), ev, op.bizNo)
  }

  lemma BatchValuesPresent(op: LogRecordOps, action: string, serviceOperatorId: string, ev: Evaluator)
    requires !IsEmpty(op.operatorId) || !IsEmpty(serviceOperatorId)
    ensures var values := BatchValues(op, action, serviceOperatorId, ev);
      && Aligned(values, ev.batchSize(op.bizNo))
      && BatchKeysPresent(op, action, ResolveOperator(op, serviceOperatorId).value, values)
      && forall t, x :: t in values && 0 <= x < ev.batchSize(op.bizNo) ==> values[t][x] == ev.atIndex(t, x)
  {
    assert op.condition != "" ==> op.condition in WithOperatorTemplate(op, GetSpElTemplates(op, action));
  }

  /** The batch step is the records built for the kept indices. */
  lemma BatchStepFromKeptIndices(op: LogRecordOps, success: bool, serviceOperatorId: string, ev: Evaluator)
    requires op.isBatch
    requires !IsEmpty(GetActionContent(success, op))
    requires !IsEmpty(op.operatorId) || !IsEmpty(serviceOperatorId)
    ensures var action := GetActionContent(success, op);
      var values := BatchValues(op, action, serviceOperatorId, ev);
      var n := ev.batchSize(op.bizNo);
      var operatorFromService := ResolveOperator(op, serviceOperatorId).value;
      && Aligned(values, n)
      && BatchKeysPresent(op, action, operatorFromService, values)
      && (forall k :: 0 <= k < |KeptIndices(op, action, values, n, 0)| ==> KeptIndices(op, action, values, n, 0)[k] < n)
      && OperationStep(op, success, serviceOperatorId, ev)
           == BatchRecorded(BatchRecordsAt(op, action, success, operatorFromService,
                values, n, KeptIndices(op, action, values, n, 0)))
  {
    var action := GetActionContent(success, op);
    var values := BatchValues(op, action, serviceOperatorId, ev);
    BatchValuesPresent(op, action, serviceOperatorId, ev);
    BatchRecordsFromKeptIndices(op, action, success, ResolveOperator(op, serviceOperatorId).value,
      values, ev.batchSize(op.bizNo), 0);
  }

  /** The indices of the batch collection that keep a record: those whose
      condition passes and whose resolved action is non-empty, ascending. */
  function BatchIndices(op: LogRecordOps, success: bool, serviceOperatorId: string, ev: Evaluator): (xs: seq<nat>)
    requires !IsEmpty(op.operatorId) || !IsEmpty(serviceOperatorId)
    ensures forall k :: 0 <= k < |xs| ==> xs[k] < ev.batchSize(op.bizNo)
  {
    var action := GetActionContent(success, op);
    var values := BatchValues(op, action, serviceOperatorId, ev);
    BatchValuesPresent(op, action, serviceOperatorId, ev);
    KeptIndices(op, action, values, ev.batchSize(op.bizNo), 0)
  }

  /** The kept indices ascend, lie in the collection, and are exactly those
      whose condition passes (checked first) and whose action is non-empty. */
  lemma BatchIndicesFacts(op: LogRecordOps, success: bool, serviceOperatorId: string, ev: Evaluator)
    requires !IsEmpty(op.operatorId) || !IsEmpty(serviceOperatorId)
    ensures var xs := BatchIndices(op, success, serviceOperatorId, ev);
      var n := ev.batchSize(op.bizNo);
      && |xs| <= n
      && (forall k, l :: 0 <= k < l < |xs| ==> xs[k] < xs[l])
      && (forall x: nat :: x in xs <==>
            && x < n
            && (IsEmpty(op.condition) || EndsWithIgnoreCase(ev.atIndex(op.condition, x), "true"))
            && !IsEmpty(ev.atIndex(GetActionContent(success, op), x)))
  {
    var action := GetActionContent(success, op);
    var values := BatchValues(op, action, serviceOperatorId, ev);
    BatchValuesPresent(op, action, serviceOperatorId, ev);
    KeptIndicesFacts(op, action, values, ev.batchSize(op.bizNo), 0);
  }

  /** Batch mode makes one batchRecord call whose k-th record is built from
      the k-th kept element, with fail == !success. */
  lemma BatchModeRecords(op: LogRecordOps, success: bool, serviceOperatorId: string, ev: Evaluator)
    requires op.isBatch
    requires !IsEmpty(GetActionContent(success, op))
    requires !IsEmpty(op.operatorId) || !IsEmpty(serviceOperatorId)
    ensures var action := GetActionContent(success, op);
      var xs := BatchIndices(op, success, serviceOperatorId, ev);
      var step := OperationStep(op, success, serviceOperatorId, ev);
      && step.BatchRecorded?
      && |step.records| == |xs|
      && (forall k :: 0 <= k < |xs| ==>
            && step.records[k].logType == ev.atIndex(op.logType, xs[k])
            && step.records[k].bizNo == ev.atIndex(op.bizNo, xs[k])
            && step.records[k].operator ==
                 (if IsEmpty(op.operatorId) then serviceOperatorId else ev.atIndex(op.operatorId, xs[k]))
            && step.records[k].subBizNo == ev.atIndex(op.subBizNo, xs[k])
            && step.records[k].extra == ev.atIndex(op.extra, xs[k])
            && step.records[k].action == ev.atIndex(action, xs[k])
            && step.records[k].fail == !success
            && step.records[k].actionType == op.actionType
            && step.records[k].detail == ev.atIndex(op.detail, xs[k]))
  {
    BatchStepFromKeptIndices(op, success, serviceOperatorId, ev);
    BatchValuesPresent(op, GetActionContent(success, op), serviceOperatorId, ev);
  }

  /** An empty batch collection gives one batchRecord call with no records. */
  lemma EmptyBatchRecordsNothing(op: LogRecordOps, success: bool, serviceOperatorId: string, ev: Evaluator)
    requires op.isBatch && ev.batchSize(op.bizNo) == 0
    requires !IsEmpty(GetActionContent(success, op))
    requires !IsEmpty(op.operatorId) || !IsEmpty(serviceOperatorId)
    ensures OperationStep(op, success, serviceOperatorId, ev) == BatchRecorded([])
  {
    BatchModeRecords(op, success, serviceOperatorId, ev);
    BatchIndicesFacts(op, success, serviceOperatorId, ev);
  }

  /** recordExecute: each operation is handled on its own; a failure in one is
      caught and the later ones are still handled, each exactly as if alone. */
  method RecordExecute(ops: seq<LogRecordOps>, success: bool, serviceOperatorId: string, ev: Evaluator)
    returns (steps: seq<Step>)
    ensures |steps| == |ops|
    ensures forall i :: 0 <= i < |ops| ==> steps[i] == OperationStep(ops[i], success, serviceOperatorId, ev)
  {
    steps := [];
    for i := 0 to |ops|
      invariant |steps| == i
      invariant forall j :: 0 <= j < i ==> steps[j] == OperationStep(ops[j], success, serviceOperatorId, ev)
    {
      var step := HandleOperation(ops[i], success, serviceOperatorId, ev);
      steps := steps + [step];
    }
  }

  /** The body of recordExecute's loop for one operation, inside its try/catch. */
  method HandleOperation(op: LogRecordOps, success: bool, serviceOperatorId: string, ev: Evaluator)
    returns (step: Step)
    ensures step == OperationStep(op, success, serviceOperatorId, ev)
  {
    var action := GetActionContent(success, op);
    if IsEmpty(action) {
      return Skipped;
    }
    var templates := GetSpElTemplates(op, action);
    var operatorFromService, all := GetOperatorIdFromServiceAndPutTemplate(op, serviceOperatorId, templates);
    if operatorFromService.Failure? {
      return Failed(operatorFromService.error);
    }
    if op.isBatch {
      var values := ParseBatchTemplate(all, ev, op.bizNo);
      var records := BatchRecords(op, action, success, operatorFromService.value, values, ev.batchSize(op.bizNo));
      step := BatchRecorded(records);
    } else {
      var values := ProcessTemplate(all, ev.single);
      step := SingleStep(op, action, success, operatorFromService.value, values);
    }
  }

  /** execute: computes the operations and the before-call templates, runs the
      call, records, and hands back the call's own outcome unchanged. */
  method Execute(isPublic: bool, annotations: seq<OperationSource.LogRecordAnnotation>, call: CallOutcome,
                 serviceOperatorId: string, ev: Evaluator)
    returns (outcome: CallOutcome, beforeTemplates: seq<string>, steps: seq<Step>)
    ensures outcome == call
    ensures var found := OperationSource.Operations(isPublic, annotations);
      && beforeTemplates == (if found.Success? && found.value.Some? then BeforeCallTemplates(found.value.value) else [])
      && steps == (if !call.ThrewError? && found.Success? && found.value.Some?
                   then RecordLog(found.value.value, call.Returned?, serviceOperatorId, ev) else [])
  {
    // try { compute operations; before-call templates } catch (Exception e) { log }
    var operations: Option<seq<LogRecordOps>> := Some([]);
    beforeTemplates := [];
    var found := OperationSource.ComputeLogRecordOperations(isPublic, annotations);
    if found.Success? {
      operations := found.value;
      if operations.Some? {
        beforeTemplates := GetBeforeExecuteFunctionTemplate(operations.value);
      }
      // a null collection makes getBeforeExecuteFunctionTemplate throw, which is caught
    }
    // try { ret = invoker.proceed(); } catch (Exception e) { ... }
    if call.ThrewError? {
      return call, beforeTemplates, [];
    }
    var success := call.Returned?;
    steps := [];
    if operations.Some? && operations.value != [] {
      steps := RecordExecute(operations.value, success, serviceOperatorId, ev);
      RecordLogIsStepwise(operations.value, success, serviceOperatorId, ev, steps);
    }
    outcome := call;
  }

  /** The steps recordExecute produces for `ops`. */
  function RecordLog(ops: seq<LogRecordOps>, success: bool, serviceOperatorId: string, ev: Evaluator): (steps: seq<Step>)
    ensures |steps| == |ops|
  {
    seq(|ops|, i requires 0 <= i < |ops| => OperationStep(ops[i], success, serviceOperatorId, ev))
  }

  lemma RecordLogIsStepwise(ops: seq<LogRecordOps>, success: bool, serviceOperatorId: string, ev: Evaluator, steps: seq<Step>)
    requires |steps| == |ops|
    requires forall i :: 0 <= i < |ops| ==> steps[i] == OperationStep(ops[i], success, serviceOperatorId, ev)
    ensures steps == RecordLog(ops, success, serviceOperatorId, ev)
  {
  }
}
