/**
 * LogRecordOperationSource: turns the @LogRecord annotations found on a
 * method into LogRecordOps values and rejects declarations that name
 * neither a success nor a fail template. Reflection (the public modifier,
 * the most specific and bridged method, the merged annotations) is taken
 * as input.
 */
module OperationSource {
  import opened Wrappers
  import opened Strings
  import opened Beans

  /** The attributes of one @LogRecord annotation. The parser reads the
      business type as `type()` and the sub type as `subType()`; the
      annotation declares them as `biz` and `subBiz`. */
  datatype LogRecordAnnotation = LogRecordAnnotation(
    success: string,
    fail: string,
    operator: string,
    biz: string,
    bizNo: string,
    subBiz: string,
    subBizNo: string,
    extra: string,
    condition: string,
    isBatch: bool,
    actionType: string,
    detail: string)

  /** The IllegalStateException raised for a declaration without templates. */
  datatype ConfigError = MissingTemplate

  /** Throws (Some) exactly when neither template has non-whitespace text. */
  function ValidateLogRecordOperation(ops: LogRecordOps): (error: Option<ConfigError>)
    ensures error.Some? <==> !HasText(ops.successLogTemplate) && !HasText(ops.failLogTemplate)
  {
    if !HasText(ops.successLogTemplate) && !HasText(ops.failLogTemplate) then Some(MissingTemplate)
    else None
  }

  /** The builder in parseLogRecordAnnotation, with every declared attribute copied. */
  function OpsOf(a: LogRecordAnnotation): LogRecordOps {
    LogRecordOps(
      successLogTemplate := a.success,
      failLogTemplate := a.fail,
      operatorId := a.operator,
      logType := a.biz,
      bizNo := a.bizNo,
      subBizNo := a.subBizNo,
      extra := a.extra,
      detail := a.detail,
      condition := a.condition,
      isBatch := a.isBatch,
      actionType := a.actionType)
  }

  /** parseLogRecordAnnotation with the subBizNo and detail attributes copied. */
  function ParseLogRecordAnnotation(a: LogRecordAnnotation): (r: Result<LogRecordOps, ConfigError>)
    ensures r.Failure? <==> !HasText(a.success) && !HasText(a.fail)
    ensures r.Failure? ==> r.error == MissingTemplate
    ensures r.Success? ==>
      && r.value.successLogTemplate == a.success
      && r.value.failLogTemplate == a.fail
      && r.value.operatorId == a.operator
      && r.value.logType == a.biz
      && r.value.bizNo == a.bizNo
      && r.value.subBizNo == a.subBizNo
      && r.value.extra == a.extra
      && r.value.detail == a.detail
      && r.value.condition == a.condition
      && r.value.isBatch == a.isBatch
      && r.value.actionType == a.actionType
  {
    var ops := OpsOf(a);
    match ValidateLogRecordOperation(ops)
    case Some(e) => Failure(e)
    case None => Success(ops)
  }

  /** parseLogRecordAnnotation as written: the builder never sets subBizNo or
      detail, so they keep the builder's unset default (empty here). */
  function ParseLogRecordAnnotationAsWritten(a: LogRecordAnnotation): (r: Result<LogRecordOps, ConfigError>)
    ensures r.Failure? <==> !HasText(a.success) && !HasText(a.fail)
    ensures r.Success? ==> r.value == OpsOf(a).(subBizNo := "", detail := "")
  {
    var ops := OpsOf(a).(subBizNo := "", detail := "");
    match ValidateLogRecordOperation(ops)
    case Some(e) => Failure(e)
    case None => Success(ops)
  }

  /** As written, a valid annotation's detail and subBizNo templates never reach
      the interceptor; the corrected parser keeps them. */
  lemma AsWrittenDropsDetail(a: LogRecordAnnotation)
    requires HasText(a.success)
    requires a.detail != "" || a.subBizNo != ""
    ensures ParseLogRecordAnnotationAsWritten(a).Success?
    ensures ParseLogRecordAnnotationAsWritten(a).value != ParseLogRecordAnnotation(a).value
  {
  }

  /** lazyInit: the given collection, or a fresh empty one for null. */
  function LazyInit(ops: Option<seq<LogRecordOps>>): (r: seq<LogRecordOps>)
    ensures ops.Some? ==> r == ops.value
    ensures ops.None? ==> r == []
  {
    match ops
    case Some(s) => s
    case None => []
  }

  /** What computeLogRecordOperations answers: null (None) for a non-public
      method or a method without annotations, the configuration error if any
      annotation is invalid, and otherwise one ops per annotation, in order. */
  function Operations(isPublic: bool, annotations: seq<LogRecordAnnotation>): Result<Option<seq<LogRecordOps>>, ConfigError> {
    if !isPublic || |annotations| == 0 then Success(None)
    else if exists i :: 0 <= i < |annotations| && ParseLogRecordAnnotation(annotations[i]).Failure? then Failure(MissingTemplate)
    else Success(Some(seq(|annotations|, i requires 0 <= i < |annotations| => OpsOf(annotations[i]))))
  }

  /** parseLogRecordAnnotations: fills a lazily created collection with one
      parsed ops per annotation; the first invalid annotation aborts. */
  method ParseLogRecordAnnotations(annotations: seq<LogRecordAnnotation>)
    returns (r: Result<Option<seq<LogRecordOps>>, ConfigError>)
    ensures r == Operations(true, annotations)
  {
    var ret: Option<seq<LogRecordOps>> := None;
    if |annotations| > 0 {
      ret := Some(LazyInit(ret));
      for i := 0 to |annotations|
        invariant ret.Some? && |ret.value| == i
        invariant forall j :: 0 <= j < i ==>
          ParseLogRecordAnnotation(annotations[j]).Success? && ret.value[j] == OpsOf(annotations[j])
      {
        var parsed := ParseLogRecordAnnotation(annotations[i]);
        if parsed.Failure? {
          return Failure(parsed.error);
        }
        ret := Some(ret.value + [parsed.value]);
      }
      assert ret.value == seq(|annotations|, i requires 0 <= i < |annotations| => OpsOf(annotations[i]));
    }
    return Success(ret);
  }

  /** computeLogRecordOperations, from the method's public flag and its merged annotations. */
  method ComputeLogRecordOperations(isPublic: bool, annotations: seq<LogRecordAnnotation>)
    returns (r: Result<Option<seq<LogRecordOps>>, ConfigError>)
    ensures r == Operations(isPublic, annotations)
  {
    if !isPublic {
      return Success(None);
    }
    r := ParseLogRecordAnnotations(annotations);
  }

  /** The answer is never an empty collection: null, an error, or one valid
      ops per annotation whose fields are the annotation's attributes. */
  lemma OperationsShape(isPublic: bool, annotations: seq<LogRecordAnnotation>)
    ensures !isPublic ==> Operations(isPublic, annotations) == Success(None)
    ensures annotations == [] ==> Operations(isPublic, annotations) == Success(None)
    ensures Operations(isPublic, annotations).Failure? <==>
      isPublic && exists i :: 0 <= i < |annotations| && !HasText(annotations[i].success) && !HasText(annotations[i].fail)
    ensures Operations(isPublic, annotations).Success? && Operations(isPublic, annotations).value.Some? ==>
      var ops := Operations(isPublic, annotations).value.value;
      && ops != []
      && |ops| == |annotations|
      && forall i :: 0 <= i < |ops| ==>
           && ValidateLogRecordOperation(ops[i]).None?
           && Success(ops[i]) == ParseLogRecordAnnotation(annotations[i])
  {
  }
}
