# mzt-biz-log core in Dafny

This project models the three parts of the mzt-biz-log SDK that decide what an audit log says.

- **`LogRecordInterceptor`** wraps a business method annotated with `@LogRecord`. Before the call it collects the templates whose functions must run first. After the call it handles every operation on its own:
  - it picks the success or fail template;
  - it resolves the operator, from the operator expression or from the operator service;
  - it evaluates the templates;
  - it gates on the condition and drops empty or no-change records;
  - in single mode it emits at most one record; in batch mode it makes one `batchRecord` call holding one record per kept element of the batch collection.

  The caller always gets the business result or exception back unchanged.
- **`DefaultDiffItemsToLogContentService`** renders a java-object-diff tree as text. Each annotated field becomes a fragment:
  - the fragment carries the field's display name, which is its annotated ancestors' names joined by the of-word;
  - lists get an added/removed line, computed by ordered list subtraction;
  - the fragments are joined by the field separator.

  A diff without changes renders as the DIFF_IS_NULL marker.
- **`LogRecordOperationSource`** turns the annotations on a public method into `LogRecordOps`. It rejects a declaration that has neither a success nor a fail template.

Files:
- `wrappers.dfy`: Option and Result.
- `strings.dfy`: the Spring `StringUtils` checks, `String.contains` and `Stream.distinct`. It also holds the "append item and separator, then strip one trailing separator" idiom and its proof.
- `beans.dfy`: `LogRecordOps` and `LogRecord`.
- `operation_source.dfy`, `interceptor.dfy` and `diff_content.dfy`: the three classes.

Where the code changes things step by step, the model is a method with a loop. Each such method is proved equal to a specification function, and lemmas state what that function guarantees. The Java loops modelled this way are:
- `getBeforeExecuteFunctionTemplate`;
- `recordExecute`;
- `parseLogRecordAnnotations`;
- `getParentFieldName`;
- `listSubtract` (an array compacted in place);
- `listToContent`;
- the `StringBuilder` visit.

SpEL evaluation is the `Interceptor.Evaluator` input:
- `single` evaluates a template;
- `atIndex` evaluates a template for the i-th batch element;
- `batchSize` is the length of the batch collection.

The operator service is an input string. Each call to `bizLogService.record` or `batchRecord` is a `Step` in the returned list.

Four behaviours of the code that a reader might not expect, all kept in the model:
- **Operator.** The operator service is consulted only when the operator expression is empty (`LogRecordInterceptor.java:201-207`). A non-empty expression therefore always wins over the service. See `Interceptor.OperatorPrecedence`.
- **No-change suppression.** An UPDATE record is dropped when its evaluated detail *contains* the no-diff marker, not only when it equals it (`LogRecordInterceptor.java:160`). This test exists only in single mode; batch records are never dropped this way.
- **Collection detection.** `valueIsCollection` is false whenever the source object is null (`DefaultDiffItemsToLogContentService.java:73-84`). It looks at the target value only when the source object exists but its field value is null.
- **List difference.** `listSubtract` keeps the minuend's order and its repeated elements (`DefaultDiffItemsToLogContentService.java:154-158`); it is not a set difference.

Several operations appear twice: once as a method that follows the Java code step by step, and once as a function that specifies it. The method's `ensures` equates it with the function, and the lemmas about the behaviour are stated on the function, since lemmas cannot call methods. The pairs are:
- `Interceptor.HandleOperation` and `Interceptor.OperationStep`;
- `DiffContent.GenerateAllFieldLog` and `DiffContent.NodeContent` with `DiffContent.OwnFragment`;
- `DiffContent.GetFieldLogName` and `DiffContent.FieldLogName`;
- `DiffContent.GetDiffLogContent` and `DiffContent.DiffLogContent`.

## Model

| member | source | states |
|---|---|---|
| Strings.Distinct | bizlog-sdk/src/main/java/com/mzt/logapi/starter/support/aop/LogRecordInterceptor.java:187 | The result has no duplicates and holds exactly the input's elements. It is no longer than the input. It equals the input when the input already has no duplicates. |
| Strings.TrimTerminated | bizlog-sdk/src/main/java/com/mzt/logapi/starter/diff/DefaultDiffItemsToLogContentService.java:160-168 | Appending each item followed by the separator, then removing one trailing separator, gives exactly the items joined by the separator. This holds whatever the items contain. |
| Strings.HasTextExamples | bizlog-sdk/src/main/java/com/mzt/logapi/starter/support/aop/LogRecordOperationSource.java:71 | `hasText` is false for the empty string and for text made only of spaces, tabs and line breaks. It is true once a non-whitespace character appears, including a non-breaking space, which Java does not count as whitespace. |
| Strings.EndsWithIgnoreCaseExamples | bizlog-sdk/src/main/java/com/mzt/logapi/starter/support/aop/LogRecordInterceptor.java:191 | The suffix test accepts "true", "TRUE" and "isTrue". It rejects "false", "true " with a trailing space, "tru" and "". |
| Strings.TrimTrailing | bizlog-sdk/src/main/java/com/mzt/logapi/starter/diff/DefaultDiffItemsToLogContentService.java:167 | Removes the separator exactly once when the text ends with it, and leaves the text unchanged otherwise. |
| OperationSource.ValidateLogRecordOperation | bizlog-sdk/src/main/java/com/mzt/logapi/starter/support/aop/LogRecordOperationSource.java:70-75 | A declaration is rejected if and only if neither the success nor the fail template has non-whitespace text. |
| OperationSource.ParseLogRecordAnnotation | bizlog-sdk/src/main/java/com/mzt/logapi/starter/support/aop/LogRecordOperationSource.java:52-67 | Corrected parser. It fails with the configuration error exactly when validation rejects. Otherwise every ops field equals the corresponding annotation attribute, including subBizNo and detail. |
| OperationSource.ParseLogRecordAnnotationAsWritten | bizlog-sdk/src/main/java/com/mzt/logapi/starter/support/aop/LogRecordOperationSource.java:52-67 | The parser as written. It fails under the same condition. A success copies every attribute except subBizNo and detail, which stay unset. |
| OperationSource.AsWrittenDropsDetail | bizlog-sdk/src/main/java/com/mzt/logapi/starter/support/aop/LogRecordOperationSource.java:53-64 | Take any valid annotation with a success template and a non-empty detail or subBizNo. The as-written parser gives a different ops from the corrected one. |
| OperationSource.LazyInit | bizlog-sdk/src/main/java/com/mzt/logapi/starter/support/aop/LogRecordOperationSource.java:77-79 | Returns the given collection when there is one, and an empty collection for null. |
| OperationSource.ParseLogRecordAnnotations | bizlog-sdk/src/main/java/com/mzt/logapi/starter/support/aop/LogRecordOperationSource.java:40-50 | The loop gives null for no annotations and the error for the first invalid annotation. Otherwise it gives one ops per annotation, in annotation order, each the corrected parse `ParseLogRecordAnnotation`: exactly `Operations(true, …)`. |
| OperationSource.ComputeLogRecordOperations | bizlog-sdk/src/main/java/com/mzt/logapi/starter/support/aop/LogRecordOperationSource.java:24-38 | A non-public method gives null; otherwise the method answers what the annotation loop `ParseLogRecordAnnotations`, with its corrected parse, does. Together this equals the specification `Operations`. |
| OperationSource.OperationsShape | bizlog-sdk/src/main/java/com/mzt/logapi/starter/support/aop/LogRecordOperationSource.java:24-50 | A non-public method and an annotation-free method both give null, never an empty collection. The result is an error if and only if the method is public and some annotation has no template text. Otherwise it holds one ops per annotation; each has passed validation and equals that annotation's parse. |
| Interceptor.GetSpElTemplates | bizlog-sdk/src/main/java/com/mzt/logapi/starter/support/aop/LogRecordInterceptor.java:181-188 | The template list has no duplicates. A template is in it exactly when it is the type, bizNo, subBizNo, action, extra or detail template, or the non-empty condition. |
| Interceptor.GetBeforeExecuteFunctionTemplate | bizlog-sdk/src/main/java/com/mzt/logapi/starter/support/aop/LogRecordInterceptor.java:86-96 | The loop concatenates, in operation order, each operation's templates built around its success template. |
| Interceptor.BeforeCallTemplatesAreSuccessPath | bizlog-sdk/src/main/java/com/mzt/logapi/starter/support/aop/LogRecordInterceptor.java:86-96 | A template is handed to the before-call function phase if and only if some operation has it as a shared field, its success template or its non-empty condition. A fail template never gets there on its own. |
| Interceptor.GetActionContent | bizlog-sdk/src/main/java/com/mzt/logapi/starter/support/aop/LogRecordInterceptor.java:212-220 | The action template is the success template after a normal return and the fail template after an exception. |
| Interceptor.EmptyActionSkipped | bizlog-sdk/src/main/java/com/mzt/logapi/starter/support/aop/LogRecordInterceptor.java:102-106 | An empty action template skips the operation before the operator is looked up. Whatever the operator service answers, and in both modes, nothing is recorded and nothing fails. |
| Interceptor.LogConditionCases | bizlog-sdk/src/main/java/com/mzt/logapi/starter/support/aop/LogRecordInterceptor.java:190-192 | An empty condition always passes. A condition with no evaluated value does not pass. A value of "TRUE" passes, "false" does not, and no value shorter than four characters does. |
| Interceptor.ConditionPassedAtIsLogCondition | bizlog-sdk/src/main/java/com/mzt/logapi/starter/support/aop/LogRecordInterceptor.java:115-117 | The batch filter at element x is the single-mode condition test applied to the values evaluated at x. |
| Interceptor.GetOperatorIdFromServiceAndPutTemplate | bizlog-sdk/src/main/java/com/mzt/logapi/starter/support/aop/LogRecordInterceptor.java:198-210 | An empty operator expression with an empty service answer fails with "operator is null". An empty expression otherwise answers the service's operator and leaves the templates as they are. A non-empty expression answers "" and appends the expression to the templates. |
| Interceptor.GetRealOperatorId | bizlog-sdk/src/main/java/com/mzt/logapi/starter/support/aop/LogRecordInterceptor.java:194-196 | The operator is the service's when it is non-empty, and otherwise the evaluated operator expression. |
| Interceptor.ProcessTemplate | bizlog-sdk/src/main/java/com/mzt/logapi/starter/support/aop/LogRecordInterceptor.java:138-139 | The evaluated values are keyed by exactly the templates handed in. |
| Interceptor.ParseBatchTemplate | bizlog-sdk/src/main/java/com/mzt/logapi/starter/support/aop/LogRecordInterceptor.java:112-113 | Every template handed in has a value list, and nothing else does. All lists have the batch collection's length. |
| Interceptor.OperatorPrecedence | bizlog-sdk/src/main/java/com/mzt/logapi/starter/support/aop/LogRecordInterceptor.java:102-109 | When the action template is non-empty, an operation fails exactly when both the operator expression and the service's operator are empty. A recorded operator is the service's when the expression is empty, and otherwise the evaluated expression. |
| Interceptor.SingleModeRecords | bizlog-sdk/src/main/java/com/mzt/logapi/starter/support/aop/LogRecordInterceptor.java:137-166 | In single mode an operation either records or is skipped. It records if and only if all four hold: the action template is non-empty; the condition is empty or evaluates to text ending in "true" (ignoring case); the evaluated action is non-empty; and it is not an UPDATE whose evaluated detail contains the no-diff marker. The record holds each evaluated field, the resolved operator, fail = !success and the declared actionType. |
| Interceptor.KeptIndicesFacts | bizlog-sdk/src/main/java/com/mzt/logapi/starter/support/aop/LogRecordInterceptor.java:114-133 | The kept batch indices strictly increase. An index is kept exactly when it lies in range, its condition passes and its action value is non-empty. |
| Interceptor.BatchRecordsFromKeptIndices | bizlog-sdk/src/main/java/com/mzt/logapi/starter/support/aop/LogRecordInterceptor.java:114-134 | The stream filter(condition), map(build record), filter(non-empty action) gives the records of the kept indices, in index order. |
| Interceptor.BatchStepFromKeptIndices | bizlog-sdk/src/main/java/com/mzt/logapi/starter/support/aop/LogRecordInterceptor.java:111-136 | A batch operation whose operator resolves makes one batchRecord call. That call holds the records of the kept indices of the evaluated batch values. |
| Interceptor.BatchIndicesFacts | bizlog-sdk/src/main/java/com/mzt/logapi/starter/support/aop/LogRecordInterceptor.java:114-118 | The record indices of a batch are ascending and at most the collection's size. An index x is one of them if and only if it is in range, its condition value at x ends in "true" (ignoring case), and its action value at x is non-empty. |
| Interceptor.BatchModeRecords | bizlog-sdk/src/main/java/com/mzt/logapi/starter/support/aop/LogRecordInterceptor.java:119-132 | The k-th batch record is built from the k-th kept element. Every field is evaluated at that element. The operator is the service's when the expression is empty. fail = !success. |
| Interceptor.EmptyBatchRecordsNothing | bizlog-sdk/src/main/java/com/mzt/logapi/starter/support/aop/LogRecordInterceptor.java:114-136 | An empty batch collection still makes one batchRecord call, with no records. |
| Interceptor.HandleOperation | bizlog-sdk/src/main/java/com/mzt/logapi/starter/support/aop/LogRecordInterceptor.java:101-170 | One loop body, including its caught failure, equals the specification step for that operation. |
| Interceptor.RecordExecute | bizlog-sdk/src/main/java/com/mzt/logapi/starter/support/aop/LogRecordInterceptor.java:98-172 | There is one step per operation, in order. Each is exactly the step that operation would give on its own, so a failure in one does not affect the others. |
| Interceptor.Execute | bizlog-sdk/src/main/java/com/mzt/logapi/starter/support/aop/LogRecordInterceptor.java:50-84 | The caller gets the call's own outcome. The before-call templates are those of the computed operations, or none when there are none or computing them failed. Recording happens unless the call threw an Error: it is one step per computed operation, with success meaning the call returned normally. |
| DiffContent.Read | bizlog-sdk/src/main/java/com/mzt/logapi/starter/diff/DefaultDiffItemsToLogContentService.java:176-178 | A field read from a null object is null. Otherwise it is the object's field value. |
| DiffContent.ToText | bizlog-sdk/src/main/java/com/mzt/logapi/starter/diff/DefaultDiffItemsToLogContentService.java:170-175 | toString fails exactly on null. It is the text of a single value and "[a, b]" for a collection. |
| DiffContent.GetFunctionValue | bizlog-sdk/src/main/java/com/mzt/logapi/starter/diff/DefaultDiffItemsToLogContentService.java:170-175 | Fails exactly on a null value. With no function name it gives the value's text, otherwise `apply(name, text)`. Every success is the transformation of the value's `toString`. |
| DiffContent.ValueIsCollection | bizlog-sdk/src/main/java/com/mzt/logapi/starter/diff/DefaultDiffItemsToLogContentService.java:73-84 | Always false when the source object is null. Otherwise the source value decides, unless it is null; then the target value decides, and only if the target object exists. |
| DiffContent.ListValue | bizlog-sdk/src/main/java/com/mzt/logapi/starter/diff/DefaultDiffItemsToLogContentService.java:148-152 | A null value reads as the empty list and a collection as its elements. Any other value fails the cast. |
| DiffContent.SubtractMembers | bizlog-sdk/src/main/java/com/mzt/logapi/starter/diff/DefaultDiffItemsToLogContentService.java:154-158 | An element survives the subtraction if and only if it is in the minuend and not in the subtractor. |
| DiffContent.SubtractCounts | bizlog-sdk/src/main/java/com/mzt/logapi/starter/diff/DefaultDiffItemsToLogContentService.java:154-158 | A surviving element keeps every one of its occurrences, and a removed one keeps none. |
| DiffContent.SubtractConcat | bizlog-sdk/src/main/java/com/mzt/logapi/starter/diff/DefaultDiffItemsToLogContentService.java:154-158 | Subtraction distributes over concatenation, so the survivors keep the minuend's order. |
| DiffContent.SubtractExample | bizlog-sdk/src/main/java/com/mzt/logapi/starter/diff/DefaultDiffItemsToLogContentService.java:117-118 | With before [a, b, c] and after [b, c, d], the added list is [d] and the removed list is [a]. |
| DiffContent.ListSubtract | bizlog-sdk/src/main/java/com/mzt/logapi/starter/diff/DefaultDiffItemsToLogContentService.java:154-158 | Copying the minuend and compacting it in place with removeAll leaves exactly the ordered subtraction. |
| DiffContent.ListToContent | bizlog-sdk/src/main/java/com/mzt/logapi/starter/diff/DefaultDiffItemsToLogContentService.java:160-168 | Gives the transformed items joined by the list-item separator, with no trailing separator. That is "" for an empty list and the single transformed item for a one-element list. |
| DiffContent.DiffLogContentCases | bizlog-sdk/src/main/java/com/mzt/logapi/starter/diff/DefaultDiffItemsToLogContentService.java:112-146 | A collection field, in any state, gives formatList(name, added, removed), or fails the cast when one side is a single value. Otherwise: ADDED fails only on a null target, CHANGED on either side null, and REMOVED on a null source. On success, ADDED gives formatAdd(name, target value), CHANGED gives formatUpdate(name, source value, target value) and REMOVED gives formatDeleted(name, source value), each value transformed by the field's function. Every other state gives "". |
| DiffContent.GetDiffLogContent | bizlog-sdk/src/main/java/com/mzt/logapi/starter/diff/DefaultDiffItemsToLogContentService.java:112-146 | The method, with its list subtraction and list rendering, equals the specification `DiffLogContent`. |
| DiffContent.AncestorPrefixIsAnnotatedNames | bizlog-sdk/src/main/java/com/mzt/logapi/starter/diff/DefaultDiffItemsToLogContentService.java:86-100 | The prefix is each annotated ancestor's name followed by the of-word, farthest ancestor first. Unannotated ancestors add nothing, and the walk goes on past them. |
| DiffContent.GetParentFieldName | bizlog-sdk/src/main/java/com/mzt/logapi/starter/diff/DefaultDiffItemsToLogContentService.java:86-100 | The while loop from the parent up to the root builds exactly that prefix. |
| DiffContent.GetFieldLogName | bizlog-sdk/src/main/java/com/mzt/logapi/starter/diff/DefaultDiffItemsToLogContentService.java:64-71 | A field's display name is the annotated ancestors' names, each followed by the of-word, and then its own name. |
| DiffContent.FieldLogNameExample | bizlog-sdk/src/main/java/com/mzt/logapi/starter/diff/DefaultDiffItemsToLogContentService.java:67-68 | With an unannotated root, an ancestor named "creator", an unannotated parent and the of-word "'s ", field "ID" is named "creator's ID". |
| DiffContent.SilentNodes | bizlog-sdk/src/main/java/com/mzt/logapi/starter/diff/DefaultDiffItemsToLogContentService.java:42-53 | These nodes contribute nothing: the root, a node without @DiffLogField, a node with a value type, and a node whose composed name is empty. |
| DiffContent.OwnFragment | bizlog-sdk/src/main/java/com/mzt/logapi/starter/diff/DefaultDiffItemsToLogContentService.java:59-61 | A node contributes at most one fragment, and never an empty one. |
| DiffContent.Fragments | bizlog-sdk/src/main/java/com/mzt/logapi/starter/diff/DefaultDiffItemsToLogContentService.java:35-37 | The fragments of a subtree, taken in visiting order, are all non-empty. |
| DiffContent.GenerateAllFieldLog | bizlog-sdk/src/main/java/com/mzt/logapi/starter/diff/DefaultDiffItemsToLogContentService.java:41-62 | The builder grows by the node's content and one field separator when the content is non-empty, and is unchanged otherwise. An exception aborts the visit. |
| DiffContent.Visit | bizlog-sdk/src/main/java/com/mzt/logapi/starter/diff/DefaultDiffItemsToLogContentService.java:34-37 | The pre-order visit appends every fragment of the subtree, each followed by the field separator, or stops at the first exception. |
| DiffContent.HasChangesOfSubtree | bizlog-sdk/src/main/java/com/mzt/logapi/starter/diff/DefaultDiffItemsToLogContentService.java:31 | A leaf has changes exactly when it was added, changed or removed. A change in any child makes the node changed. An untouched, circular, ignored or inaccessible node has changes exactly when some child does. |
| DiffContent.ToLogContent | bizlog-sdk/src/main/java/com/mzt/logapi/starter/diff/DefaultDiffItemsToLogContentService.java:29-39 | A diff without changes gives the DIFF_IS_NULL marker. Otherwise the result is the fragments joined by the field separator, with no trailing separator, or the first exception. |

## Left out

- SpEL evaluation (`processTemplate`, `parseBatchTemplate`, `processBeforeExecuteFunctionTemplate`) belongs to LogRecordValueParser, which is not part of this model. The `Evaluator` input stands in for it. Evaluation failures, and null results such as a missing detail value, are not modelled.
- The results of the before-call functions are folded into the `Evaluator`. The model computes only which templates are sent to them.
- `bizLogService.record` and `batchRecord` are foreign I/O; the model returns them as `Step` values. The null check on `bizLogService` is not modelled.
- The operator service is an input string. A null `getUser()` answer is not modelled.
- Spring AOP and reflection are inputs rather than code: `MethodInvocation.proceed`, the target class and most specific method, bridged methods, the merged annotations and the public-modifier check.
- The bean wiring (`afterPropertiesSet` and the setters) is left out: it is framework plumbing.
- `LogRecordContext` thread-local spans, creation timestamps, the code-location map and slf4j logging are side effects that do not decide what is recorded.
- Strings.EndsWithIgnoreCase folds only ASCII letters, while `regionMatches(ignoreCase)` folds every letter. The two agree on the suffix "true": the only non-ASCII characters whose upper or lower case is an ASCII letter are the dotless i, the long s, the dotted capital I and the Kelvin sign, which map to i, s, i and k. None of these letters occurs in "true".
- Strings.TrimTrailing removes one literal trailing separator. Two things about `replaceAll(sep + "$", "")` are not modelled: a separator holding regex metacharacters, and `$` matching just before a final line terminator.
- Beans.DiffIsNull is a stand-in for the text of `LogRecordValueParser.DIFF_IS_NULL`, which is not part of this model. No proof depends on that text.
- java-object-diff is not part of this model: its tree building, `canonicalGet` and `visit` are replaced by the `DiffNode` datatype and a pre-order walk. `hasChanges` follows that library's definition: the node is added, changed or removed, or some descendant has changes.
- `LogRecordProperties.formatAdd`, `formatUpdate`, `formatDeleted` and `formatList`, and `IFunctionService.apply`, are not shown, so they stay uninterpreted functions. Exceptions raised inside them are not modelled.
- List elements are compared by their text (their `toString`), where `removeAll` uses `equals`. Null list elements are not modelled.
- A field value is null, a collection or a single value known by its text. Maps and arrays count as single values, as they are not Collections.
- OperationSource.ParseLogRecordAnnotations builds every ops with the corrected parse, `OperationSource.ParseLogRecordAnnotation`, and so do `OperationSource.Operations`, `OperationSource.ComputeLogRecordOperations` and `Interceptor.Execute`, which use it. The modelled interceptor therefore evaluates and records the declared `detail` and `subBizNo` templates. As written, the builder at `LogRecordOperationSource.java:53-64` leaves both fields null (see "## Findings").
- OperationSource.ParseLogRecordAnnotationAsWritten represents the `subBizNo` and `detail` that the builder leaves unset as "". In Java they stay null, and the record's detail is then whatever evaluating a null template yields (`LogRecordInterceptor.java:152`). When that is null, `getDetail().contains` at `LogRecordInterceptor.java:160` throws for an UPDATE record. The operation's catch block swallows the exception, so the record is lost rather than written.
- Interceptor.Execute does not model an Error thrown inside the before-call phase or the recording phase: only Exceptions are caught there.

## Findings

| source | as written | input that shows it | evidently intended | confidence | as-written member | corrected member |
|---|---|---|---|---|---|---|
| bizlog-sdk/src/main/java/com/mzt/logapi/starter/support/aop/LogRecordOperationSource.java:53-64 | The builder never sets `subBizNo` or `detail`, although the annotation declares both and the interceptor evaluates and records both. | `@LogRecord(success = "updated", biz = "order", bizNo = "#id", detail = "#diff")`: the parsed ops has a null detail, so the diff is never evaluated or recorded. For an UPDATE operation whose null template evaluates to null, `getDetail().contains` throws and the record is lost. | Copy every declared attribute, including `subBizNo` and `detail`. | not executed; medium (the listed `LogRecordOps` bean has no such fields either, so the copy may live in a version not shown) | OperationSource.ParseLogRecordAnnotationAsWritten, OperationSource.AsWrittenDropsDetail | OperationSource.ParseLogRecordAnnotation, used by OperationSource.ParseLogRecordAnnotations, OperationSource.ComputeLogRecordOperations and Interceptor.Execute |
