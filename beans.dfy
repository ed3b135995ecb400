/** The value types shared by the interceptor, the operation source and the diff renderer. */
module Beans {

  /**
   * One parsed @LogRecord declaration, with the fields the interceptor reads.
   * The Java field `type` is `logType` here (`type` is a Dafny keyword).
   */
  datatype LogRecordOps = LogRecordOps(
    successLogTemplate: string,
    failLogTemplate: string,
    operatorId: string,
    logType: string,
    bizNo: string,
    subBizNo: string,
    extra: string,
    detail: string,
    condition: string,
    isBatch: bool,
    actionType: string)

  /**
   * A finished audit record. The creation time and the code-location map
   * (declaring class and method name) are not modelled.
   */
  datatype LogRecord = LogRecord(
    logType: string,
    bizNo: string,
    operator: string,
    subBizNo: string,
    extra: string,
    action: string,
    fail: bool,
    actionType: string,
    detail: string)

  /**
   * The text the diff renderer returns for a diff without changes
   * (LogRecordValueParser.DIFF_IS_NULL). LogRecordValueParser is not part of
   * this model, so the text below is a stand-in: no proof depends on it.
   */
  const DiffIsNull: string := "DIFF_IS_NULL"
}
