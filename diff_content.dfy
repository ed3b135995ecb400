/**
 * DefaultDiffItemsToLogContentService: renders a java-object-diff tree as
 * audit-log text. The tree is a datatype; each node carries the two field
 * values it compares (as canonicalGet would read them), its diff state, its
 * @DiffLogField annotation if any, and its children in visiting order.
 */
module DiffContent {
  import opened Wrappers
  import opened Strings
  import Beans

  /** DiffNode.State. */
  datatype State = Added | Changed | Removed | Untouched | Circular | Ignored | Inaccessible

  /** The @DiffLogField annotation: the display name and the name of the
      function that turns a value into readable text ("" for none). */
  datatype DiffLogField = DiffLogField(name: string, functionName: string)

  /** A field value as read from the compared object: null, a single object
      (by its toString text) or a Collection (by its elements' toString texts). */
  datatype Value = Null | Scalar(text: string) | Items(elements: seq<string>)

  datatype DiffNode = DiffNode(
    state: State,
    field: Option<DiffLogField>,
    hasValueType: bool,      // getValueTypeInfo() != null: a nested object the visit descends into
    source: Value,           // the field's value in the source object
    target: Value,           // the field's value in the target object
    children: seq<DiffNode>)

  /** The parts of LogRecordProperties the renderer uses; the message
      formats are not part of this model and stay uninterpreted. */
  datatype Properties = Properties(
    fieldSeparator: string,
    ofWord: string,
    listItemSeparator: string,
    formatAdd: (string, string) -> string,
    formatUpdate: (string, string, string) -> string,
    formatDeleted: (string, string) -> string,
    formatList: (string, string, string) -> string)

  /** The renderer's two final fields: IFunctionService.apply and the properties. */
  datatype Renderer = Renderer(apply: (string, string) -> string, properties: Properties)

  /** The runtime exceptions the renderer can raise. */
  datatype RenderError =
    | NullValue      // toString() on a null field value
    | NotACollection // the (Collection) cast in getListValue

  /** The value canonicalGet reads from the source or target object: null
      when that object itself is null. */
  function Read(v: Value, objectPresent: bool): (r: Value)
    ensures !objectPresent ==> r.Null?
    ensures objectPresent ==> r == v
  {
    if objectPresent then v else Null
  }

  /** Object.toString on a field value; AbstractCollection renders "[a, b]". */
  function ToText(v: Value): (r: Result<string, RenderError>)
    ensures r.Failure? <==> v.Null?
    ensures v.Scalar? ==> r == Success(v.text)
    ensures v.Items? ==> r.Success? && r.value == "[" + Join(v.elements, ", ") + "]"
  {
    match v
    case Null => Failure(NullValue)
    case Scalar(t) => Success(t)
    case Items(xs) => Success("[" + Join(xs, ", ") + "]")
  }

  /** getFunctionValue on a text that is already known. */
  function Transform(text: string, functionName: string, rd: Renderer): string {
    if IsEmpty(functionName) then text else rd.apply(functionName, text)
  }

  /** getFunctionValue: the value's text, passed through the named function
      when there is one; a null value throws. */
  function GetFunctionValue(v: Value, functionName: string, rd: Renderer): (r: Result<string, RenderError>)
    ensures r.Failure? <==> v.Null?
    ensures v.Scalar? && IsEmpty(functionName) ==> r == Success(v.text)
    ensures v.Scalar? && !IsEmpty(functionName) ==> r == Success(rd.apply(functionName, v.text))
    ensures r.Success? ==> r.value == Transform(ToText(v).value, functionName, rd)
  {
    match ToText(v)
    case Failure(e) => Failure(e)
    case Success(t) => Success(Transform(t, functionName, rd))
  }

  /** valueIsCollection: decided by the source value, or by the target value
      when the source object exists but its field is null. */
  function ValueIsCollection(node: DiffNode, sourcePresent: bool, targetPresent: bool): (r: bool)
    ensures !sourcePresent ==> !r
    ensures sourcePresent && !node.source.Null? ==> (r <==> node.source.Items?)
    ensures sourcePresent && node.source.Null? ==> (r <==> targetPresent && node.target.Items?)
  {
    if sourcePresent then
      if node.source.Null? && targetPresent then node.target.Items?
      else node.source.Items?
    else false
  }

  /** getListValue: null reads as an empty list; a value that is not a
      Collection fails the cast. */
  function ListValue(v: Value): (r: Result<seq<string>, RenderError>)
    ensures r.Failure? <==> v.Scalar?
    ensures v.Null? ==> r == Success([])
    ensures v.Items? ==> r == Success(v.elements)
  {
    match v
    case Null => Success([])
    case Items(xs) => Success(xs)
    case Scalar(_) => Failure(NotACollection)
  }

  // ---------------------------------------------------------------------
  // listSubtract

  /** The elements of `minuend` that are not in `subtractor`, in order and
      with their repetitions: what ArrayList.removeAll leaves. */
  function Subtract(minuend: seq<string>, subtractor: seq<string>): seq<string> {
    if minuend == [] then []
    else (if minuend[0] in subtractor then [] else [minuend[0]]) + Subtract(minuend[1..], subtractor)
  }

  lemma {:induction false} SubtractConcat(a: seq<string>, b: seq<string>, subtractor: seq<string>)
    ensures Subtract(a + b, subtractor) == Subtract(a, subtractor) + Subtract(b, subtractor)
  {
    if a == [] {
      assert a + b == b;
    } else {
      assert (a + b)[1..] == a[1..] + b;
      SubtractConcat(a[1..], b, subtractor);
    }
  }

  /** An element survives exactly when it is in the minuend and not in the subtractor. */
  lemma {:induction false} SubtractMembers(minuend: seq<string>, subtractor: seq<string>, x: string)
    ensures x in Subtract(minuend, subtractor) <==> x in minuend && x !in subtractor
  {
    if minuend != [] {
      SubtractMembers(minuend[1..], subtractor, x);
      assert x in minuend <==> x == minuend[0] || x in minuend[1..];
    }
  }

  /** Every surviving element keeps all of its occurrences, and nothing else survives. */
  lemma {:induction false} SubtractCounts(minuend: seq<string>, subtractor: seq<string>, x: string)
    ensures multiset(Subtract(minuend, subtractor))[x] == if x in subtractor then 0 else multiset(minuend)[x]
  {
    if minuend != [] {
      SubtractCounts(minuend[1..], subtractor, x);
      assert minuend == [minuend[0]] + minuend[1..];
    }
  }

  /** Before [a, b, c] and after [b, c, d]: d was added and a was removed. */
  lemma SubtractExample()
    ensures Subtract(["b", "c", "d"], ["a", "b", "c"]) == ["d"]
    ensures Subtract(["a", "b", "c"], ["b", "c", "d"]) == ["a"]
  {
    assert ["b", "c", "d"][1..] == ["c", "d"];
    assert ["c", "d"][1..] == ["d"];
    assert ["a", "b", "c"][1..] == ["b", "c"];
    assert ["b", "c"][1..] == ["c"];
  }

  /** listSubtract: copies the minuend into a fresh list and removes, in
      place, every element the subtractor contains. */
  method ListSubtract(minuend: seq<string>, subtractor: seq<string>) returns (r: seq<string>)
    ensures r == Subtract(minuend, subtractor)
  {
    var list := new string[|minuend|](i requires 0 <= i < |minuend| => minuend[i]);
    var kept := 0;
    for i := 0 to list.Length
      invariant kept <= i
      invariant list[..kept] == Subtract(minuend[..i], subtractor)
      invariant list[i..] == minuend[i..]
    {
      assert minuend[..i + 1] == minuend[..i] + [minuend[i]];
      SubtractConcat(minuend[..i], [minuend[i]], subtractor);
      assert list[i] == minuend[i];
      if list[i] !in subtractor {
        list[kept] := list[i];
        kept := kept + 1;
      }
    }
    assert minuend[..list.Length] == minuend;
    r := list[..kept];
  }

  // ---------------------------------------------------------------------
  // listToContent

  function ItemTexts(functionName: string, items: seq<string>, rd: Renderer): (r: seq<string>)
    ensures |r| == |items|
    ensures forall i :: 0 <= i < |items| ==> r[i] == Transform(items[i], functionName, rd)
  {
    seq(|items|, i requires 0 <= i < |items| => Transform(items[i], functionName, rd))
  }

  /** What listToContent returns. */
  function ListContent(functionName: string, items: seq<string>, rd: Renderer): string {
    Join(ItemTexts(functionName, items, rd), rd.properties.listItemSeparator)
  }

  /** listToContent: every transformed item followed by the list-item
      separator, then one trailing separator removed. */
  method ListToContent(functionName: string, items: seq<string>, rd: Renderer) returns (content: string)
    ensures content == ListContent(functionName, items, rd)
    ensures items == [] ==> content == ""
    ensures |items| == 1 ==> content == Transform(items[0], functionName, rd)
  {
    var sep := rd.properties.listItemSeparator;
    var sb := "";
    if |items| > 0 {
      for i := 0 to |items|
        invariant sb == Terminated(ItemTexts(functionName, items[..i], rd), sep)
      {
        var text := Transform(items[i], functionName, rd);
        assert ItemTexts(functionName, items[..i + 1], rd) == ItemTexts(functionName, items[..i], rd) + [text];
        TerminatedConcat(ItemTexts(functionName, items[..i], rd), [text], sep);
        sb := sb + text + sep;
      }
      assert items[..|items|] == items;
    }
    TrimTerminated(ItemTexts(functionName, items, rd), sep);
    content := TrimTrailing(sb, sep);
  }

  // ---------------------------------------------------------------------
  // getDiffLogContent

  /** The text for one logged field. A collection field renders the added
      and the removed elements through formatList whatever its state; any
      other field renders by its state. */
  function DiffLogContent(name: string, node: DiffNode, sourcePresent: bool, targetPresent: bool,
                          functionName: string, isCollection: bool, rd: Renderer): Result<string, RenderError>
  {
    var before := Read(node.source, sourcePresent);
    var after := Read(node.target, targetPresent);
    var p := rd.properties;
    if isCollection then
      match ListValue(before)
      case Failure(e) => Failure(e)
      case Success(sourceList) =>
        match ListValue(after)
        case Failure(e) => Failure(e)
        case Success(targetList) =>
          Success(p.formatList(name,
            ListContent(functionName, Subtract(targetList, sourceList), rd),
            ListContent(functionName, Subtract(sourceList, targetList), rd)))
    else
      match node.state
      case Added =>
        (match GetFunctionValue(after, functionName, rd)
         case Failure(e) => Failure(e)
         case Success(t) => Success(p.formatAdd(name, t)))
      case Changed =>
        (match GetFunctionValue(before, functionName, rd)
         case Failure(e) => Failure(e)
         case Success(s) =>
           match GetFunctionValue(after, functionName, rd)
           case Failure(e) => Failure(e)
           case Success(t) => Success(p.formatUpdate(name, s, t)))
      case Removed =>
        (match GetFunctionValue(before, functionName, rd)
         case Failure(e) => Failure(e)
         case Success(s) => Success(p.formatDeleted(name, s)))
      case _ => Success("")
  }

  /** The dispatch of getDiffLogContent, stated case by case. */
  lemma DiffLogContentCases(name: string, node: DiffNode, sourcePresent: bool, targetPresent: bool,
                            functionName: string, isCollection: bool, rd: Renderer)
    ensures var r := DiffLogContent(name, node, sourcePresent, targetPresent, functionName, isCollection, rd);
      && (isCollection && !Read(node.source, sourcePresent).Scalar? && !Read(node.target, targetPresent).Scalar? ==>
            var before := ListValue(Read(node.source, sourcePresent)).value;
            var after := ListValue(Read(node.target, targetPresent)).value;
            r == Success(rd.properties.formatList(name,
                   ListContent(functionName, Subtract(after, before), rd),
                   ListContent(functionName, Subtract(before, after), rd))))
      && (isCollection && (Read(node.source, sourcePresent).Scalar? || Read(node.target, targetPresent).Scalar?) ==>
            r == Failure(NotACollection))
      && (!isCollection && node.state !in {Added, Changed, Removed} ==> r == Success(""))
      && (!isCollection && node.state == Added ==>
            (r.Failure? <==> Read(node.target, targetPresent).Null?))
      && (!isCollection && node.state == Changed ==>
            (r.Failure? <==> Read(node.source, sourcePresent).Null? || Read(node.target, targetPresent).Null?))
      && (!isCollection && node.state == Removed ==>
            (r.Failure? <==> Read(node.source, sourcePresent).Null?))
      && (!isCollection && node.state == Added && r.Success? ==>
            r.value == rd.properties.formatAdd(name,
              GetFunctionValue(Read(node.target, targetPresent), functionName, rd).value))
      && (!isCollection && node.state == Changed && r.Success? ==>
            r.value == rd.properties.formatUpdate(name,
              GetFunctionValue(Read(node.source, sourcePresent), functionName, rd).value,
              GetFunctionValue(Read(node.target, targetPresent), functionName, rd).value))
      && (!isCollection && node.state == Removed && r.Success? ==>
            r.value == rd.properties.formatDeleted(name,
              GetFunctionValue(Read(node.source, sourcePresent), functionName, rd).value))
  {
  }

  /** getDiffLogContent. */
  method GetDiffLogContent(name: string, node: DiffNode, state: State, sourcePresent: bool, targetPresent: bool,
                           functionName: string, isCollection: bool, rd: Renderer)
    returns (content: Result<string, RenderError>)
    requires state == node.state
    ensures content == DiffLogContent(name, node, sourcePresent, targetPresent, functionName, isCollection, rd)
  {
    var p := rd.properties;
    if isCollection {
      var sourceList := ListValue(Read(node.source, sourcePresent));
      if sourceList.Failure? { return Failure(sourceList.error); }
      var targetList := ListValue(Read(node.target, targetPresent));
      if targetList.Failure? { return Failure(targetList.error); }
      var addItemList := ListSubtract(targetList.value, sourceList.value);
      var delItemList := ListSubtract(sourceList.value, targetList.value);
      var listAddContent := ListToContent(functionName, addItemList, rd);
      var listDelContent := ListToContent(functionName, delItemList, rd);
      return Success(p.formatList(name, listAddContent, listDelContent));
    }
    match state
    case Added =>
      var t := GetFunctionValue(Read(node.target, targetPresent), functionName, rd);
      if t.Failure? { return Failure(t.error); }
      content := Success(p.formatAdd(name, t.value));
    case Changed =>
      var s := GetFunctionValue(Read(node.source, sourcePresent), functionName, rd);
      if s.Failure? { return Failure(s.error); }
      var t := GetFunctionValue(Read(node.target, targetPresent), functionName, rd);
      if t.Failure? { return Failure(t.error); }
      content := Success(p.formatUpdate(name, s.value, t.value));
    case Removed =>
      var s := GetFunctionValue(Read(node.source, sourcePresent), functionName, rd);
      if s.Failure? { return Failure(s.error); }
      content := Success(p.formatDeleted(name, s.value));
    case _ =>
      content := Success("");
  }

  // ---------------------------------------------------------------------
  // Field names

  /** The annotated ancestors' names, farthest ancestor first; `ancestors`
      lists the fields of the path from the root down to the parent. */
  function AnnotatedNames(ancestors: seq<Option<DiffLogField>>): (r: seq<string>)
    ensures |r| <= |ancestors|
  {
    if ancestors == [] then []
    else
      (match ancestors[0] case None => [] case Some(f) => [f.name]) + AnnotatedNames(ancestors[1..])
  }

  function Label(field: Option<DiffLogField>, ofWord: string): string {
    match field
    case None => ""
    case Some(f) => f.name + ofWord
  }

  /** What getParentFieldName returns. */
  function AncestorPrefix(ancestors: seq<Option<DiffLogField>>, ofWord: string): string {
    if ancestors == [] then "" else Label(ancestors[0], ofWord) + AncestorPrefix(ancestors[1..], ofWord)
  }

  lemma {:induction false} AncestorPrefixConcat(a: seq<Option<DiffLogField>>, b: seq<Option<DiffLogField>>, ofWord: string)
    ensures AncestorPrefix(a + b, ofWord) == AncestorPrefix(a, ofWord) + AncestorPrefix(b, ofWord)
  {
    if a == [] {
      assert a + b == b;
    } else {
      assert (a + b)[1..] == a[1..] + b;
      AncestorPrefixConcat(a[1..], b, ofWord);
    }
  }

  /** The prefix is every annotated ancestor's name followed by the of-word,
      farthest ancestor first; unannotated ancestors add nothing. */
  lemma {:induction false} AncestorPrefixIsAnnotatedNames(ancestors: seq<Option<DiffLogField>>, ofWord: string)
    ensures AncestorPrefix(ancestors, ofWord) == Terminated(AnnotatedNames(ancestors), ofWord)
  {
    if ancestors != [] {
      AncestorPrefixIsAnnotatedNames(ancestors[1..], ofWord);
      var head := match ancestors[0] case None => [] case Some(f) => [f.name];
      TerminatedConcat(head, AnnotatedNames(ancestors[1..]), ofWord);
      if ancestors[0].Some? {
        assert Terminated(head, ofWord) == ancestors[0].value.name + ofWord + "";
      }
    }
  }

  /** getParentFieldName: walks from the parent up to the root, putting each
      annotated ancestor's name and the of-word in front of what it has so far. */
  method GetParentFieldName(ancestors: seq<Option<DiffLogField>>, ofWord: string) returns (prefix: string)
    ensures prefix == AncestorPrefix(ancestors, ofWord)
  {
    prefix := "";
    var parent := |ancestors|;
    while parent > 0
      invariant 0 <= parent <= |ancestors|
      invariant prefix == AncestorPrefix(ancestors[parent..], ofWord)
    {
      parent := parent - 1;
      assert ancestors[parent..][1..] == ancestors[parent + 1..];
      var annotation := ancestors[parent];
      if annotation.None? {
        continue;
      }
      prefix := annotation.value.name + ofWord + prefix;
    }
  }

  /** The "creator's ID" reading: an unannotated ancestor is skipped and an
      annotated one lends its name and the of-word. */
  lemma FieldLogNameExample()
    ensures FieldLogName([None, Some(DiffLogField("creator", "")), None], DiffLogField("ID", ""), "'s ") == "creator's ID"
  {
    var path := [None, Some(DiffLogField("creator", "")), None];
    assert path[1..] == [Some(DiffLogField("creator", "")), None];
    assert path[1..][1..] == [None];
    assert path[1..][1..][1..] == [];
  }

  /** What getFieldLogName returns for a non-root node, whose parent always exists. */
  function FieldLogName(ancestors: seq<Option<DiffLogField>>, field: DiffLogField, ofWord: string): string {
    AncestorPrefix(ancestors, ofWord) + field.name
  }

  /** getFieldLogName. */
  method GetFieldLogName(ancestors: seq<Option<DiffLogField>>, field: DiffLogField, ofWord: string) returns (name: string)
    ensures name == FieldLogName(ancestors, field, ofWord)
    ensures name == Terminated(AnnotatedNames(ancestors), ofWord) + field.name
  {
    name := field.name;
    if ancestors != [] {
      var prefix := GetParentFieldName(ancestors, ofWord);
      name := prefix + name;
    }
    AncestorPrefixIsAnnotatedNames(ancestors, ofWord);
  }

  // ---------------------------------------------------------------------
  // generateAllFieldLog, the visit and toLogContent

  /** The content one node contributes ("" for nothing). The root, nodes
      without @DiffLogField, nested-object nodes and nodes whose composed
      name is empty contribute nothing. */
  function NodeContent(node: DiffNode, ancestors: seq<Option<DiffLogField>>,
                       sourcePresent: bool, targetPresent: bool, rd: Renderer): Result<string, RenderError>
  {
    if ancestors == [] || node.field.None? || node.hasValueType then Success("")
    else
      var name := FieldLogName(ancestors, node.field.value, rd.properties.ofWord);
      if IsEmpty(name) then Success("")
      else DiffLogContent(name, node, sourcePresent, targetPresent, node.field.value.functionName,
                          ValueIsCollection(node, sourcePresent, targetPresent), rd)
  }

  lemma SilentNodes(node: DiffNode, ancestors: seq<Option<DiffLogField>>,
                    sourcePresent: bool, targetPresent: bool, rd: Renderer)
    ensures ancestors == [] ==> NodeContent(node, ancestors, sourcePresent, targetPresent, rd) == Success("")
    ensures node.field.None? ==> NodeContent(node, ancestors, sourcePresent, targetPresent, rd) == Success("")
    ensures node.hasValueType ==> NodeContent(node, ancestors, sourcePresent, targetPresent, rd) == Success("")
    ensures node.field.Some? && IsEmpty(FieldLogName(ancestors, node.field.value, rd.properties.ofWord)) ==>
      NodeContent(node, ancestors, sourcePresent, targetPresent, rd) == Success("")
  {
  }

  /** `first` followed by the fragments `rest` holds, unless `rest` is an exception. */
  function Prepend(first: seq<string>, rest: Result<seq<string>, RenderError>): (r: Result<seq<string>, RenderError>)
    ensures r.Failure? <==> rest.Failure?
    ensures r.Success? ==> r.value == first + rest.value
    ensures r.Failure? ==> r.error == rest.error
  {
    match rest
    case Failure(e) => Failure(e)
    case Success(fs) => Success(first + fs)
  }

  /** The node's own fragment: none when its content is empty. */
  function OwnFragment(node: DiffNode, ancestors: seq<Option<DiffLogField>>,
                       sourcePresent: bool, targetPresent: bool, rd: Renderer): (r: Result<seq<string>, RenderError>)
    ensures r.Success? ==> |r.value| <= 1 && forall k :: 0 <= k < |r.value| ==> r.value[k] != ""
  {
    match NodeContent(node, ancestors, sourcePresent, targetPresent, rd)
    case Failure(e) => Failure(e)
    case Success(c) => Success(if IsEmpty(c) then [] else [c])
  }

  /** The non-empty fragments of a subtree in pre-order (the node before its
      children, children in order), or the first exception raised. */
  function Fragments(node: DiffNode, ancestors: seq<Option<DiffLogField>>,
                     sourcePresent: bool, targetPresent: bool, rd: Renderer): (r: Result<seq<string>, RenderError>)
    ensures r.Success? ==> forall k :: 0 <= k < |r.value| ==> r.value[k] != ""
    decreases node, 1
  {
    match OwnFragment(node, ancestors, sourcePresent, targetPresent, rd)
    case Failure(e) => Failure(e)
    case Success(own) =>
      Prepend(own, ChildFragments(node, 0, ancestors + [node.field], sourcePresent, targetPresent, rd))
  }

  /** The fragments of node.children[i..], in order. */
  function ChildFragments(node: DiffNode, i: nat, childAncestors: seq<Option<DiffLogField>>,
                          sourcePresent: bool, targetPresent: bool, rd: Renderer): (r: Result<seq<string>, RenderError>)
    requires i <= |node.children|
    ensures r.Success? ==> forall k :: 0 <= k < |r.value| ==> r.value[k] != ""
    decreases node, 0, |node.children| - i
  {
    if i == |node.children| then Success([])
    else
      match Fragments(node.children[i], childAncestors, sourcePresent, targetPresent, rd)
      case Failure(e) => Failure(e)
      case Success(first) =>
        Prepend(first, ChildFragments(node, i + 1, childAncestors, sourcePresent, targetPresent, rd))
  }

  /** The builder's text after appending fragments, each followed by the separator. */
  function Appended(sb: string, fragments: Result<seq<string>, RenderError>, sep: string): Result<string, RenderError> {
    match fragments
    case Failure(e) => Failure(e)
    case Success(fs) => Success(sb + Terminated(fs, sep))
  }

  lemma AppendedNothing(sb: string, sep: string)
    ensures Appended(sb, Success([]), sep) == Success(sb)
  {
    assert sb + Terminated([], sep) == sb;
  }

  /** Appending `first` and then `rest` is appending their concatenation. */
  lemma AppendedPrepend(sb: string, first: seq<string>, rest: Result<seq<string>, RenderError>, sep: string)
    ensures Appended(sb + Terminated(first, sep), rest, sep) == Appended(sb, Prepend(first, rest), sep)
  {
    if rest.Success? {
      TerminatedConcat(first, rest.value, sep);
      var a, b := Terminated(first, sep), Terminated(rest.value, sep);
      assert (sb + a) + b == sb + (a + b);
    }
  }

  /** generateAllFieldLog: appends the node's content and the field
      separator to the builder, unless the content is empty. */
  method GenerateAllFieldLog(sourcePresent: bool, targetPresent: bool, sb: string, node: DiffNode,
                             ancestors: seq<Option<DiffLogField>>, rd: Renderer)
    returns (r: Result<string, RenderError>)
    ensures r == Appended(sb, OwnFragment(node, ancestors, sourcePresent, targetPresent, rd), rd.properties.fieldSeparator)
  {
    if ancestors == [] {
      AppendedNothing(sb, rd.properties.fieldSeparator);
      return Success(sb);
    }
    var annotation := node.field;
    if annotation.None? || node.hasValueType {
      AppendedNothing(sb, rd.properties.fieldSeparator);
      return Success(sb);
    }
    var name := GetFieldLogName(ancestors, annotation.value, rd.properties.ofWord);
    if IsEmpty(name) {
      AppendedNothing(sb, rd.properties.fieldSeparator);
      return Success(sb);
    }
    var isCollection := ValueIsCollection(node, sourcePresent, targetPresent);
    var content := GetDiffLogContent(name, node, node.state, sourcePresent, targetPresent,
                                     annotation.value.functionName, isCollection, rd);
    if content.Failure? {
      return Failure(content.error);
    }
    if !IsEmpty(content.value) {
      assert Terminated([content.value], rd.properties.fieldSeparator) == content.value + rd.properties.fieldSeparator + "";
      assert sb + Terminated([content.value], rd.properties.fieldSeparator) == sb + content.value + rd.properties.fieldSeparator;
      return Success(sb + content.value + rd.properties.fieldSeparator);
    }
    AppendedNothing(sb, rd.properties.fieldSeparator);
    return Success(sb);
  }

  /** DiffNode.visit with the generateAllFieldLog visitor: the node first,
      then each child subtree in order; an exception stops the walk. */
  method Visit(node: DiffNode, ancestors: seq<Option<DiffLogField>>, sourcePresent: bool, targetPresent: bool,
               sb: string, rd: Renderer) returns (r: Result<string, RenderError>)
    ensures r == Appended(sb, Fragments(node, ancestors, sourcePresent, targetPresent, rd), rd.properties.fieldSeparator)
    decreases node, 1
  {
    var sep := rd.properties.fieldSeparator;
    r := GenerateAllFieldLog(sourcePresent, targetPresent, sb, node, ancestors, rd);
    if r.Failure? {
      assert Fragments(node, ancestors, sourcePresent, targetPresent, rd) == Failure(r.error);
      return;
    }
    var childAncestors := ancestors + [node.field];
    AppendedPrepend(sb, OwnFragment(node, ancestors, sourcePresent, targetPresent, rd).value,
                    ChildFragments(node, 0, childAncestors, sourcePresent, targetPresent, rd), sep);
    for i := 0 to |node.children|
      invariant r.Success?
      invariant Appended(r.value, ChildFragments(node, i, childAncestors, sourcePresent, targetPresent, rd), sep)
             == Appended(sb, Fragments(node, ancestors, sourcePresent, targetPresent, rd), sep)
    {
      var before := r.value;
      r := Visit(node.children[i], childAncestors, sourcePresent, targetPresent, before, rd);
      if r.Failure? {
        assert ChildFragments(node, i, childAncestors, sourcePresent, targetPresent, rd) == Failure(r.error);
        return;
      }
      AppendedPrepend(before, Fragments(node.children[i], childAncestors, sourcePresent, targetPresent, rd).value,
                      ChildFragments(node, i + 1, childAncestors, sourcePresent, targetPresent, rd), sep);
    }
    AppendedNothing(r.value, sep);
  }

  /** hasChanges: the node was added, changed or removed, or some
      descendant was. */
  predicate HasChanges(node: DiffNode)
    decreases node
  {
    || node.state == Added || node.state == Changed || node.state == Removed
    || exists i :: 0 <= i < |node.children| && HasChanges(node.children[i])
  }

  /** hasChanges looks at the whole subtree: a node without children has
      changes exactly when its own state is ADDED, CHANGED or REMOVED, and a
      change anywhere below a node makes the node itself changed. */
  lemma HasChangesOfSubtree(node: DiffNode)
    ensures node.children == [] ==> (HasChanges(node) <==> node.state in {Added, Changed, Removed})
    ensures forall i :: 0 <= i < |node.children| && HasChanges(node.children[i]) ==> HasChanges(node)
    ensures node.state in {Untouched, Circular, Ignored, Inaccessible} ==>
      (HasChanges(node) <==> exists i :: 0 <= i < |node.children| && HasChanges(node.children[i]))
  {
  }

  /** What toLogContent returns: DIFF_IS_NULL for a diff without changes,
      otherwise the fragments joined by the field separator. */
  function LogContent(diff: DiffNode, sourcePresent: bool, targetPresent: bool, rd: Renderer): Result<string, RenderError> {
    if !HasChanges(diff) then Success(Beans.DiffIsNull)
    else
      match Fragments(diff, [], sourcePresent, targetPresent, rd)
      case Failure(e) => Failure(e)
      case Success(fs) => Success(Join(fs, rd.properties.fieldSeparator))
  }

  /** toLogContent. */
  method ToLogContent(diff: DiffNode, sourcePresent: bool, targetPresent: bool, rd: Renderer)
    returns (content: Result<string, RenderError>)
    ensures content == LogContent(diff, sourcePresent, targetPresent, rd)
    ensures !HasChanges(diff) ==> content == Success(Beans.DiffIsNull)
  {
    if !HasChanges(diff) {
      return Success(Beans.DiffIsNull);
    }
    var sep := rd.properties.fieldSeparator;
    var built := Visit(diff, [], sourcePresent, targetPresent, "", rd);
    if built.Failure? {
      return Failure(built.error);
    }
    TrimTerminated(Fragments(diff, [], sourcePresent, targetPresent, rd).value, sep);
    assert built.value == Terminated(Fragments(diff, [], sourcePresent, targetPresent, rd).value, sep);
    content := Success(TrimTrailing(built.value, sep));
  }
}
