/** XmlStructureDocumentVisitor: the older renderer that writes markup straight from the
    document's own traversal callbacks. Apart from fixed tag lines it is a small state machine
    over fields: a DOCPROPERTY or DOCVARIABLE field is collapsed into a named start tag, the
    field-code run and the field separator are swallowed, and the field end becomes a named end
    tag.

    A string field of the source that may be null is modelled by the empty string: every read
    of such a field goes through string.IsNullOrEmpty or string.Concat, and both treat null
    exactly as "". */
module DocumentRendering {
  import Sequences
  import opened Wrappers
  import XmlStructureExtensions

  const NewLine: string := XmlStructureExtensions.NewLine

  /** Aspose's page-break control character (ControlChar.PageBreak, a form feed). */
  const PageBreak: char := '\U{C}'

  const DocumentVariablePrefix: string := "docvariable"
  const DocumentPropertyPrefix: string := "docproperty"

  const BuiltInTag: string := "BuiltInDocumentProperty"
  const CustomTag: string := "CustomDocumentProperty"
  const VariableTag: string := "DocumentVariable"

  // ---------------------------------------------------------------------------------------
  // String.Trim
  // ---------------------------------------------------------------------------------------

  /** char.IsWhiteSpace: the Unicode space separators, the line and paragraph separators,
      U+0009 to U+000D, U+0085 and U+00A0. */
  predicate IsWhiteSpace(c: char)
  {
    ('\U{9}' <= c <= '\U{D}') || c == ' ' || c == '\U{85}' || c == '\U{A0}' || c == '\U{1680}'
    || ('\U{2000}' <= c <= '\U{200A}') || c == '\U{2028}' || c == '\U{2029}'
    || c == '\U{202F}' || c == '\U{205F}' || c == '\U{3000}'
  }

  /** Text that neither starts nor ends with white space. */
  predicate Trimmed(s: string)
  {
    s == [] || (!IsWhiteSpace(s[0]) && !IsWhiteSpace(s[|s| - 1]))
  }

  /** The longest suffix of `s` that does not start with white space; only white space is dropped. */
  function TrimStart(s: string): (r: string)
    ensures r == [] || !IsWhiteSpace(r[0])
    ensures |r| <= |s| && r == s[|s| - |r|..]
    ensures forall i :: 0 <= i < |s| - |r| ==> IsWhiteSpace(s[i])
  {
    if s != [] && IsWhiteSpace(s[0]) then TrimStart(s[1..]) else s
  }

  /** The longest prefix of `s` that does not end with white space; only white space is dropped. */
  function TrimEnd(s: string): (r: string)
    ensures r == [] || !IsWhiteSpace(r[|r| - 1])
    ensures |r| <= |s| && r == s[..|r|]
    ensures forall i :: |r| <= i < |s| ==> IsWhiteSpace(s[i])
  {
    if s != [] && IsWhiteSpace(s[|s| - 1]) then TrimEnd(s[..|s| - 1]) else s
  }

  /** String.Trim: `s` without its leading and trailing white space. */
  function Trim(s: string): (r: string)
    ensures Trimmed(r) && |r| <= |s|
  {
    TrimEnd(TrimStart(s))
  }

  /** White space in front of text that does not start with white space is all TrimStart removes. */
  lemma {:induction false} TrimStartPadded(ws: string, x: string)
    requires forall k :: 0 <= k < |ws| ==> IsWhiteSpace(ws[k])
    requires x == [] || !IsWhiteSpace(x[0])
    ensures TrimStart(ws + x) == x
  {
    if ws == [] {
      assert ws + x == x;
    } else {
      assert (ws + x)[1..] == ws[1..] + x;
      TrimStartPadded(ws[1..], x);
    }
  }

  /** White space after text that does not end with white space is all TrimEnd removes. */
  lemma {:induction false} TrimEndPadded(x: string, ws: string)
    requires forall k :: 0 <= k < |ws| ==> IsWhiteSpace(ws[k])
    requires x == [] || !IsWhiteSpace(x[|x| - 1])
    ensures TrimEnd(x + ws) == x
  {
    if ws == [] {
      assert x + ws == x;
    } else {
      var w := ws[..|ws| - 1];
      assert (x + ws)[..|x + ws| - 1] == x + w;
      TrimEndPadded(x, w);
    }
  }

  /** Trim undoes any white-space padding of trimmed text. */
  lemma TrimPadded(ws1: string, name: string, ws2: string)
    requires forall k :: 0 <= k < |ws1| ==> IsWhiteSpace(ws1[k])
    requires forall k :: 0 <= k < |ws2| ==> IsWhiteSpace(ws2[k])
    requires Trimmed(name)
    ensures Trim(ws1 + name + ws2) == name
  {
    if name == [] {
      assert ws1 + name + ws2 == ws1 + ws2;
      assert forall k :: 0 <= k < |ws1 + ws2| ==> IsWhiteSpace((ws1 + ws2)[k]);
      TrimStartPadded(ws1 + ws2, []);
      assert ws1 + ws2 + [] == ws1 + ws2;
    } else {
      assert ws1 + name + ws2 == ws1 + (name + ws2);
      TrimStartPadded(ws1, name + ws2);
      TrimEndPadded(name, ws2);
    }
  }

  /** Trimming twice is the same as trimming once. */
  lemma TrimIdempotent(s: string)
    ensures Trim(Trim(s)) == Trim(s)
  {
    var t := Trim(s);
    TrimPadded([], t, []);
    assert [] + t + [] == t;
  }

  // ---------------------------------------------------------------------------------------
  // Field names and their tags
  // ---------------------------------------------------------------------------------------

  /** The exceptions a field start can raise: the field's next sibling is not a Run (the `as`
      cast yields null and `.Text` dereferences it), or its text is too short for Substring. */
  datatype VisitError = NullReference | ArgumentOutOfRange

  /** GetDocumentPropertyFromField / GetDocumentVariableFromField: the text of the run that
      follows the field start, without its first |prefix| + 1 characters, trimmed.
      `nextSibling` is that run's text, or None when the next sibling is not a Run. Only the
      length of the prefix is used: the dropped characters are never compared with it. */
  function FieldName(prefix: string, nextSibling: Option<string>): (r: Result<string, VisitError>)
    ensures r == Err(NullReference) <==> nextSibling.None?
    ensures r == Err(ArgumentOutOfRange) <==> nextSibling.Some? && |nextSibling.value| < |prefix| + 1
    ensures r.Ok? ==> Trimmed(r.value) && |r.value| <= |nextSibling.value| - (|prefix| + 1)
  {
    match nextSibling
    case None => Err(NullReference)
    case Some(runText) =>
      if |runText| < |prefix| + 1 then Err(ArgumentOutOfRange)
      else Ok(Trim(runText[|prefix| + 1..]))
  }

  /** A field code such as " DOCPROPERTY  Title " yields the name it carries: any lead as long
      as the prefix plus one, then the name padded with white space. */
  lemma FieldNameOfCode(prefix: string, lead: string, ws1: string, name: string, ws2: string)
    requires |lead| == |prefix| + 1
    requires forall k :: 0 <= k < |ws1| ==> IsWhiteSpace(ws1[k])
    requires forall k :: 0 <= k < |ws2| ==> IsWhiteSpace(ws2[k])
    requires Trimmed(name)
    ensures FieldName(prefix, Some(lead + ws1 + name + ws2)) == Ok(name)
  {
    var code := lead + ws1 + name + ws2;
    assert code[|prefix| + 1..] == ws1 + name + ws2;
    TrimPadded(ws1, name, ws2);
  }

  /** The public constant IDENTIFIERS of BuiltInDocumentPropertyNames, which is what the
      reflection over its fields yields (not the constants' values). */
  const BuiltInDocumentPropertyNames: set<string> :=
    {"Title", "Subject", "Author", "Company", "Keywords", "Category", "Comments", "Manager",
     "ContentType", "ContentStatus", "Language", "DocumentVersion", "HyperlinkBase"}

  predicate IsBuiltInDocumentProperty(documentPropertyName: string)
  {
    documentPropertyName in BuiltInDocumentPropertyNames
  }

  /** GetXmlTagForDocumentProperty: the built-in tag exactly for the listed identifiers, the
      custom tag for every other name. */
  function XmlTagForDocumentProperty(documentProperty: string): (r: string)
    ensures r == BuiltInTag <==> IsBuiltInDocumentProperty(documentProperty)
    ensures r == CustomTag <==> !IsBuiltInDocumentProperty(documentProperty)
  {
    if IsBuiltInDocumentProperty(documentProperty) then BuiltInTag else CustomTag
  }

  /** Identifiers are compared, not values, and the comparison is case-sensitive: the four
      built-in properties whose names contain a space are classified as custom. */
  lemma IdentifiersNotValues()
    ensures XmlTagForDocumentProperty("Title") == BuiltInTag
    ensures XmlTagForDocumentProperty("ContentType") == BuiltInTag
    ensures XmlTagForDocumentProperty("title") == CustomTag
    ensures forall v :: v in ["Content Type", "Content Status", "Document Version", "Hyperlink Base"]
                        ==> XmlTagForDocumentProperty(v) == CustomTag
  {
    assert "title" != "Title";
  }

  // ---------------------------------------------------------------------------------------
  // Callbacks and their fixed output
  // ---------------------------------------------------------------------------------------

  datatype FieldKind = DocProperty | DocVariable | OtherField

  /** The elements whose end callback writes a bare closing tag. */
  datatype Element =
    | Shape | Table | Cell | Row | Document | Section | Body | Paragraph
    | BuildingBlock | Comment | CommentRange | CustomXmlMarkup | Footnote | GlossaryDocument
    | GroupShape | Header | Footer | OfficeMath | SmartTag | ContentControl

  function ElementName(e: Element): string
  {
    match e
    case Shape => "Shape"
    case Table => "Table"
    case Cell => "Cell"
    case Row => "Row"
    case Document => "Document"
    case Section => "Section"
    case Body => "Body"
    case Paragraph => "Paragraph"
    case BuildingBlock => "BuildingBlock"
    case Comment => "Comment"
    case CommentRange => "CommentRange"
    case CustomXmlMarkup => "CustomXmlMarkup"
    case Footnote => "Footnote"
    case GlossaryDocument => "GlossaryDocument"
    case GroupShape => "GroupShape"
    case Header => "Header"
    case Footer => "Footer"
    case OfficeMath => "OfficeMath"
    case SmartTag => "SmartTag"
    case ContentControl => "ContentControl"
  }

  /** Elements whose start callback also writes a bare tag; the other four carry attributes. */
  predicate HasPlainStart(e: Element)
  {
    !(e.Shape? || e.Section? || e.Paragraph? || e.ContentControl?)
  }

  type PlainElement = e: Element | HasPlainStart(e) witness Table

  /** The callbacks the visitor overrides, with the node data each one reads. Shape sizes are
      the already formatted numbers; `Start(Header)` and `Start(Footer)` stand for
      VisitHeaderFooterStart with IsHeader true and false. */
  datatype DocEvent =
    | ShapeStart(width: string, height: string)
    | SectionStart(paperSize: string)
    | ParagraphStart(styleIdentifier: string, styleName: string)
    | StructuredDocumentTagStart(title: string)
    | Start(element: PlainElement)
    | End(closed: Element)
    | BookmarkStart(bookmarkStartName: string)
    | BookmarkEnd(bookmarkEndName: string)
    | DrawingMl
    | FormField
    | SpecialChar
    | Run(text: string)
    | FieldStart(fieldType: FieldKind, nextSibling: Option<string>)
    | FieldSeparator
    | FieldEnd

  /** The callbacks whose output depends on the field state. */
  predicate IsFieldEvent(e: DocEvent)
  {
    e.Run? || e.FieldStart? || e.FieldSeparator? || e.FieldEnd?
  }

  /** The line a stateless callback writes: one tag, then the line terminator. */
  function Markup(e: DocEvent): string
    requires !IsFieldEvent(e)
  {
    var line := match e
      case ShapeStart(width, height) => "<Shape width=\"" + width + "\" height=\"" + height + "\">"
      case SectionStart(paperSize) => "<Section PaperSize='" + paperSize + "'>"
      case ParagraphStart(styleIdentifier, styleName) =>
        "<Paragraph StyleIdentifier='" + styleIdentifier + "' StyleName='" + styleName + "'>"
      case StructuredDocumentTagStart(title) => "<ContentControl Title=\"" + title + "\" >"
      case Start(element) => "<" + ElementName(element) + ">"
      case End(closed) => "</" + ElementName(closed) + ">"
      case BookmarkStart(name) => "<BookmarkStart Name='" + name + "' />"
      case BookmarkEnd(name) => "<BookmarkEnd Name='" + name + "' />"
      case DrawingMl => "<DrawingML />"
      case FormField => "<FormField />"
      case SpecialChar => "<SpecialChar />";
    line + NewLine
  }

  // ---------------------------------------------------------------------------------------
  // Visitor state and the field state machine
  // ---------------------------------------------------------------------------------------

  datatype VisitorState = VisitorState(
    output: string,
    skipRun: bool,
    skipFieldSeparator: bool,
    currentFieldTagName: string,
    currentDocumentProperty: string,
    currentDocumentVariable: string)

  /** A fresh visitor: nothing written, nothing skipped, no field pending. */
  const Initial: VisitorState := VisitorState("", false, false, "", "", "")

  /** The line a collapsed field start or end writes. */
  function FieldStartTag(tag: string, name: string): string
  {
    "<" + tag + "Start Name=\"" + name + "\" />" + NewLine
  }

  function FieldEndTag(tag: string, name: string): string
  {
    "<" + tag + "End Name=\"" + name + "\"/>" + NewLine
  }

  /** The line a run that is not swallowed and holds no page break writes; its text is not escaped. */
  function RunLine(text: string): string
  {
    "<Run>" + text + "</Run>" + NewLine
  }

  /** VisitRun: a run right after a collapsed field start is its field code; it is swallowed
      and arms the separator skip. Any other run writes a page break if its text holds one,
      otherwise its text, unescaped. */
  function RunStep(s: VisitorState, text: string): (r: VisitorState)
    ensures s.skipRun ==> r == s.(skipRun := false, skipFieldSeparator := true)
    ensures !s.skipRun ==> r.skipRun == s.skipRun && r.skipFieldSeparator == s.skipFieldSeparator
    ensures !s.skipRun && PageBreak in text ==> r.output == s.output + "<PageBreak />" + NewLine
    ensures !s.skipRun && PageBreak !in text ==> r.output == s.output + RunLine(text)
    ensures r.currentFieldTagName == s.currentFieldTagName
    ensures r.currentDocumentProperty == s.currentDocumentProperty
    ensures r.currentDocumentVariable == s.currentDocumentVariable
  {
    if s.skipRun then s.(skipRun := false, skipFieldSeparator := true)
    else if PageBreak in text then s.(output := s.output + "<PageBreak />" + NewLine)
    else s.(output := s.output + RunLine(text))
  }

  /** The prefix whose length GetDocumentPropertyFromField or GetDocumentVariableFromField skips. */
  function PrefixFor(fieldType: FieldKind): string
  {
    if fieldType == DocVariable then DocumentVariablePrefix else DocumentPropertyPrefix
  }

  /** The three tags a collapsed field is written under. */
  predicate IsFieldTag(t: string)
  {
    t == BuiltInTag || t == CustomTag || t == VariableTag
  }

  /** The state after a collapsed field start: the name is pending as a property or a
      variable, the tag is remembered, the start tag is written and the code run will be skipped. */
  function Started(s: VisitorState, tag: string, name: string, isProperty: bool): VisitorState
  {
    var t := s.(output := s.output + FieldStartTag(tag, name), skipRun := true, currentFieldTagName := tag);
    if isProperty then t.(currentDocumentProperty := name) else t.(currentDocumentVariable := name)
  }

  /** VisitFieldStart: a DOCPROPERTY or DOCVARIABLE field records its name and tag, writes the
      named start tag and arms the run skip; the name is extracted first, so a failure leaves
      the state as it was. Any other field writes a bare field-start tag. */
  function FieldStartStep(s: VisitorState, fieldType: FieldKind, nextSibling: Option<string>)
    : (r: Result<VisitorState, VisitError>)
    ensures r.Err? <==> fieldType != OtherField && FieldName(PrefixFor(fieldType), nextSibling).Err?
    ensures r.Ok? ==> s.output < r.value.output
    ensures r.Ok? ==> (r.value.skipRun <==> s.skipRun || fieldType != OtherField)
    ensures r.Ok? && fieldType != OtherField ==> IsFieldTag(r.value.currentFieldTagName)
    ensures fieldType == OtherField ==> r == Ok(s.(output := s.output + "<FieldStart />" + NewLine))
  {
    match fieldType
    case DocProperty =>
      (match FieldName(DocumentPropertyPrefix, nextSibling)
       case Err(error) => Err(error)
       case Ok(name) => Ok(Started(s, XmlTagForDocumentProperty(name), name, true)))
    case DocVariable =>
      (match FieldName(DocumentVariablePrefix, nextSibling)
       case Err(error) => Err(error)
       case Ok(name) => Ok(Started(s, VariableTag, name, false)))
    case OtherField => Ok(s.(output := s.output + "<FieldStart />" + NewLine))
  }

  /** VisitFieldSeparator: swallowed once after a collapsed field's code run, written otherwise. */
  function SeparatorStep(s: VisitorState): (r: VisitorState)
    ensures s.skipFieldSeparator ==> r == s.(skipFieldSeparator := false)
    ensures !s.skipFieldSeparator ==> r == s.(output := s.output + "<FieldSeparator />" + NewLine)
  {
    if s.skipFieldSeparator then s.(skipFieldSeparator := false)
    else s.(output := s.output + "<FieldSeparator />" + NewLine)
  }

  /** VisitFieldEnd: a pending property wins over a pending variable; the pending one gets its
      named end tag (under the most recent field tag) and is cleared. With neither pending a bare
      field-end tag is written. */
  function FieldEndStep(s: VisitorState): (r: VisitorState)
    ensures s.currentDocumentProperty != "" ==>
      r == s.(output := s.output + FieldEndTag(s.currentFieldTagName, s.currentDocumentProperty),
              currentDocumentProperty := "")
    ensures s.currentDocumentProperty == "" && s.currentDocumentVariable != "" ==>
      r == s.(output := s.output + FieldEndTag(s.currentFieldTagName, s.currentDocumentVariable),
              currentDocumentVariable := "")
    ensures s.currentDocumentProperty == "" && s.currentDocumentVariable == "" ==>
      r == s.(output := s.output + "<FieldEnd />" + NewLine)
  {
    if s.currentDocumentProperty != "" then
      s.(output := s.output + FieldEndTag(s.currentFieldTagName, s.currentDocumentProperty),
         currentDocumentProperty := "")
    else if s.currentDocumentVariable != "" then
      s.(output := s.output + FieldEndTag(s.currentFieldTagName, s.currentDocumentVariable),
         currentDocumentVariable := "")
    else s.(output := s.output + "<FieldEnd />" + NewLine)
  }

  /** One callback. */
  function Step(s: VisitorState, e: DocEvent): Result<VisitorState, VisitError>
  {
    match e
    case Run(text) => Ok(RunStep(s, text))
    case FieldStart(fieldType, nextSibling) => FieldStartStep(s, fieldType, nextSibling)
    case FieldSeparator => Ok(SeparatorStep(s))
    case FieldEnd => Ok(FieldEndStep(s))
    case _ => Ok(s.(output := s.output + Markup(e)))
  }

  /** Only a collapsed field start can fail, exactly when its name cannot be extracted. */
  lemma StepFails(s: VisitorState, e: DocEvent)
    ensures Step(s, e).Err? <==>
              e.FieldStart? && e.fieldType != OtherField && FieldName(PrefixFor(e.fieldType), e.nextSibling).Err?
  {
  }

  /** Every callback only appends to the output. */
  lemma StepOnlyAppends(s: VisitorState, e: DocEvent)
    ensures Step(s, e).Ok? ==> s.output <= Step(s, e).value.output
  {
  }

  /** A sequence of callbacks; the first exception ends the traversal. */
  function Feed(s: VisitorState, es: seq<DocEvent>): Result<VisitorState, VisitError>
    decreases |es|
  {
    if es == [] then Ok(s)
    else match Step(s, es[0])
      case Err(error) => Err(error)
      case Ok(next) => Feed(next, es[1..])
  }

  /** Feeding a stream whose first callback succeeds continues from the state it leaves. */
  lemma FeedFirst(s: VisitorState, e: DocEvent, rest: seq<DocEvent>, t: VisitorState)
    requires Step(s, e) == Ok(t)
    ensures Feed(s, [e] + rest) == Feed(t, rest)
  {
    assert ([e] + rest)[0] == e;
    assert ([e] + rest)[1..] == rest;
  }

  /** Feeding two streams one after the other is feeding their concatenation. */
  lemma {:induction false} FeedAppend(s: VisitorState, a: seq<DocEvent>, b: seq<DocEvent>)
    decreases |a|
    ensures Feed(s, a + b) == (match Feed(s, a) case Err(error) => Err(error) case Ok(t) => Feed(t, b))
  {
    if a == [] {
      assert a + b == b;
    } else {
      Sequences.ConcatTail(a, b);
      match Step(s, a[0])
      case Err(_) =>
      case Ok(next) => FeedAppend(next, a[1..], b);
    }
  }

  /** Output already written is never changed by later callbacks. */
  lemma {:induction false} FeedOnlyAppends(s: VisitorState, es: seq<DocEvent>)
    decreases |es|
    ensures Feed(s, es).Ok? ==> s.output <= Feed(s, es).value.output
  {
    if es != [] {
      StepOnlyAppends(s, es[0]);
      match Step(s, es[0])
      case Err(_) =>
      case Ok(next) => FeedOnlyAppends(next, es[1..]);
    }
  }

  /** A callback outside the field machine appends its line and changes nothing else. */
  lemma StepMarkup(s: VisitorState, e: DocEvent)
    requires !IsFieldEvent(e)
    ensures Step(s, e) == Ok(s.(output := s.output + Markup(e)))
  {
  }

  /** Callbacks outside the field machine write their own lines in order and change nothing else. */
  lemma {:induction false} FeedMarkup(s: VisitorState, es: seq<DocEvent>)
    decreases |es|
    requires NoFieldEvents(es)
    ensures Feed(s, es) == Ok(s.(output := s.output + MarkupAll(es)))
  {
    if es == [] {
      assert s.output + [] == s.output;
    } else {
      var e := es[0];
      var next := s.(output := s.output + Markup(e));
      StepMarkup(s, e);
      assert es == [e] + es[1..];
      FeedFirst(s, e, es[1..], next);
      FeedMarkup(next, es[1..]);
      assert next.output + MarkupAll(es[1..]) == s.output + MarkupAll(es);
    }
  }

  /** A stream with no callback of the field machine. */
  predicate NoFieldEvents(es: seq<DocEvent>)
  {
    es == [] || (!IsFieldEvent(es[0]) && NoFieldEvents(es[1..]))
  }

  /** The lines such a stream writes, in order. */
  function MarkupAll(es: seq<DocEvent>): string
    requires NoFieldEvents(es)
  {
    if es == [] then [] else Markup(es[0]) + MarkupAll(es[1..])
  }

  /** The field tag names the visitor can hold; "" until the first collapsed field. */
  predicate Consistent(s: VisitorState)
  {
    && (s.currentFieldTagName == "" || IsFieldTag(s.currentFieldTagName))
    && (s.skipRun || s.currentDocumentProperty != "" || s.currentDocumentVariable != ""
        ==> IsFieldTag(s.currentFieldTagName))
  }

  /** Every callback keeps the visitor consistent, so a pending field's end tag always carries
      one of the three field tags. */
  lemma StepKeepsConsistent(s: VisitorState, e: DocEvent)
    requires Consistent(s)
    ensures Step(s, e).Ok? ==> Consistent(Step(s, e).value)
  {
    if !IsFieldEvent(e) {
      StepMarkup(s, e);
    }
  }

  lemma {:induction false} FeedKeepsConsistent(s: VisitorState, es: seq<DocEvent>)
    decreases |es|
    requires Consistent(s)
    ensures Feed(s, es).Ok? ==> Consistent(Feed(s, es).value)
  {
    if es != [] {
      StepKeepsConsistent(s, es[0]);
      match Step(s, es[0])
      case Err(_) =>
      case Ok(next) => FeedKeepsConsistent(next, es[1..]);
    }
  }

  /** A DOCPROPERTY start whose name can be extracted records the name and its tag, writes the
      named start tag and arms the run skip. */
  lemma PropertyStartRecorded(s: VisitorState, code: string, name: string)
    requires FieldName(DocumentPropertyPrefix, Some(code)) == Ok(name)
    ensures var tag := XmlTagForDocumentProperty(name);
            Step(s, FieldStart(DocProperty, Some(code)))
            == Ok(s.(output := s.output + FieldStartTag(tag, name), skipRun := true,
                     currentFieldTagName := tag, currentDocumentProperty := name))
  {
    var tag := XmlTagForDocumentProperty(name);
    assert FieldStartStep(s, DocProperty, Some(code)) == Ok(Started(s, tag, name, true));
  }

  /** A DOCVARIABLE start whose name can be extracted records it under the variable tag. */
  lemma VariableStartRecorded(s: VisitorState, code: string, name: string)
    requires FieldName(DocumentVariablePrefix, Some(code)) == Ok(name)
    ensures Step(s, FieldStart(DocVariable, Some(code)))
            == Ok(s.(output := s.output + FieldStartTag(VariableTag, name), skipRun := true,
                     currentFieldTagName := VariableTag, currentDocumentVariable := name))
  {
    assert FieldStartStep(s, DocVariable, Some(code)) == Ok(Started(s, VariableTag, name, false));
  }

  /** The run after a collapsed field start writes nothing and hands the skip on to the separator. */
  lemma CodeRunSwallowed(s: VisitorState, text: string)
    requires s.skipRun
    ensures Step(s, Run(text)) == Ok(s.(skipRun := false, skipFieldSeparator := true))
  {
  }

  /** An armed separator skip swallows exactly one separator. */
  lemma SeparatorSwallowed(s: VisitorState)
    requires s.skipFieldSeparator
    ensures Step(s, FieldSeparator) == Ok(s.(skipFieldSeparator := false))
  {
  }

  /** Any other run without a page break writes its text, unescaped, between Run tags. */
  lemma ResultRunWritten(s: VisitorState, text: string)
    requires !s.skipRun && PageBreak !in text
    ensures Step(s, Run(text)) == Ok(s.(output := s.output + RunLine(text)))
  {
  }

  /** A pending property is closed by the next field end, under the current field tag. */
  lemma PropertyEndWritten(s: VisitorState)
    requires s.currentDocumentProperty != ""
    ensures Step(s, FieldEnd)
            == Ok(s.(output := s.output + FieldEndTag(s.currentFieldTagName, s.currentDocumentProperty),
                     currentDocumentProperty := ""))
  {
  }

  /** With no property pending, a pending variable is closed by the next field end. */
  lemma VariableEndWritten(s: VisitorState)
    requires s.currentDocumentProperty == "" && s.currentDocumentVariable != ""
    ensures Step(s, FieldEnd)
            == Ok(s.(output := s.output + FieldEndTag(s.currentFieldTagName, s.currentDocumentVariable),
                     currentDocumentVariable := ""))
  {
  }

  /** With neither a property nor a variable pending, a field end writes a bare tag. */
  lemma BareFieldEnd(s: VisitorState)
    requires s.currentDocumentProperty == "" && s.currentDocumentVariable == ""
    ensures Step(s, FieldEnd) == Ok(s.(output := s.output + "<FieldEnd />" + NewLine))
  {
  }

  /** With no field pending or skipped, a DOCPROPERTY field whose code names a non-empty
      property collapses to: its named start tag, the result run, its named end tag. The code
      run and the separator write nothing, and afterwards nothing is skipped or pending. */
  lemma DocPropertyCollapses(s: VisitorState, code: string, name: string, result: string)
    requires !s.skipRun && !s.skipFieldSeparator
    requires FieldName(DocumentPropertyPrefix, Some(code)) == Ok(name) && name != ""
    requires PageBreak !in result
    ensures var tag := XmlTagForDocumentProperty(name);
            Feed(s, [FieldStart(DocProperty, Some(code)), Run(code), FieldSeparator, Run(result), FieldEnd])
            == Ok(s.(output := s.output + FieldStartTag(tag, name) + RunLine(result) + FieldEndTag(tag, name),
                     currentFieldTagName := tag, currentDocumentProperty := ""))
  {
    var tag := XmlTagForDocumentProperty(name);
    var s1 := s.(output := s.output + FieldStartTag(tag, name), skipRun := true,
                 currentFieldTagName := tag, currentDocumentProperty := name);
    PropertyStartRecorded(s, code, name);
    var s2 := s1.(skipRun := false, skipFieldSeparator := true);
    CodeRunSwallowed(s1, code);
    var s3 := s2.(skipFieldSeparator := false);
    SeparatorSwallowed(s2);
    var s4 := s3.(output := s3.output + RunLine(result));
    ResultRunWritten(s3, result);
    PropertyEndWritten(s4);
    var s5 := s4.(output := s4.output + FieldEndTag(tag, name), currentDocumentProperty := "");
    FeedFirst(s4, FieldEnd, [], s5);
    FeedFirst(s3, Run(result), [FieldEnd], s4);
    FeedFirst(s2, FieldSeparator, [Run(result), FieldEnd], s3);
    FeedFirst(s1, Run(code), [FieldSeparator, Run(result), FieldEnd], s2);
    FeedFirst(s, FieldStart(DocProperty, Some(code)), [Run(code), FieldSeparator, Run(result), FieldEnd], s1);
  }

  /** The same for a DOCVARIABLE field, provided no property is pending: a pending property
      would take the variable's end callback for its own end tag. */
  lemma DocVariableCollapses(s: VisitorState, code: string, name: string, result: string)
    requires !s.skipRun && !s.skipFieldSeparator && s.currentDocumentProperty == ""
    requires FieldName(DocumentVariablePrefix, Some(code)) == Ok(name) && name != ""
    requires PageBreak !in result
    ensures Feed(s, [FieldStart(DocVariable, Some(code)), Run(code), FieldSeparator, Run(result), FieldEnd])
            == Ok(s.(output := s.output + FieldStartTag(VariableTag, name) + RunLine(result)
                               + FieldEndTag(VariableTag, name),
                     currentFieldTagName := VariableTag, currentDocumentVariable := ""))
  {
    var s1 := s.(output := s.output + FieldStartTag(VariableTag, name), skipRun := true,
                 currentFieldTagName := VariableTag, currentDocumentVariable := name);
    VariableStartRecorded(s, code, name);
    var s2 := s1.(skipRun := false, skipFieldSeparator := true);
    CodeRunSwallowed(s1, code);
    var s3 := s2.(skipFieldSeparator := false);
    SeparatorSwallowed(s2);
    var s4 := s3.(output := s3.output + RunLine(result));
    ResultRunWritten(s3, result);
    VariableEndWritten(s4);
    var s5 := s4.(output := s4.output + FieldEndTag(VariableTag, name), currentDocumentVariable := "");
    FeedFirst(s4, FieldEnd, [], s5);
    FeedFirst(s3, Run(result), [FieldEnd], s4);
    FeedFirst(s2, FieldSeparator, [Run(result), FieldEnd], s3);
    FeedFirst(s1, Run(code), [FieldSeparator, Run(result), FieldEnd], s2);
    FeedFirst(s, FieldStart(DocVariable, Some(code)), [Run(code), FieldSeparator, Run(result), FieldEnd], s1);
  }

  /** A DOCPROPERTY field whose code holds no name (only white space after the prefix) still
      writes a start tag and swallows its code run, but the empty name counts as no pending
      property, so its end is written as a bare field end. */
  lemma EmptyPropertyNameEndsBare(s: VisitorState, code: string)
    requires !s.skipRun && s.currentDocumentVariable == ""
    requires FieldName(DocumentPropertyPrefix, Some(code)) == Ok("")
    ensures Feed(s, [FieldStart(DocProperty, Some(code)), Run(code), FieldEnd])
            == Ok(s.(output := s.output + FieldStartTag(CustomTag, "") + "<FieldEnd />" + NewLine,
                     skipFieldSeparator := true, currentFieldTagName := CustomTag,
                     currentDocumentProperty := ""))
  {
    var s1 := s.(output := s.output + FieldStartTag(CustomTag, ""), skipRun := true,
                 currentFieldTagName := CustomTag, currentDocumentProperty := "");
    EmptyNameIsCustom();
    PropertyStartRecorded(s, code, "");
    var s2 := s1.(skipRun := false, skipFieldSeparator := true);
    CodeRunSwallowed(s1, code);
    var s3 := s2.(output := s2.output + "<FieldEnd />" + NewLine);
    BareFieldEnd(s2);
    FeedFirst(s2, FieldEnd, [], s3);
    FeedFirst(s1, Run(code), [FieldEnd], s2);
    FeedFirst(s, FieldStart(DocProperty, Some(code)), [Run(code), FieldEnd], s1);
  }

  lemma EmptyNameIsCustom()
    ensures XmlTagForDocumentProperty("") == CustomTag
  {
  }

  // ---------------------------------------------------------------------------------------
  // AsXml's fallback
  // ---------------------------------------------------------------------------------------

  /** The diagnostic lines AsXml puts in front of text that does not parse as XML. */
  const FallbackPreamble: string :=
    "Could not interpret the document as xml." + NewLine
    + "Please raise an issue at https://github.com/philippdolder/AsposeVisualizer to help improve the aspose debugger visualizer." + NewLine
    + NewLine
    + "Here is the document as string representation:" + NewLine
    + NewLine

  /** FormatXml: `formatted` is what parsing and re-printing `xml` gives, or None when the parser
      rejects it. A rejected text is returned after the preamble, unchanged. */
  function FormatXml(xml: string, formatted: Option<string>): (r: string)
    ensures formatted.Some? ==> r == formatted.value
    ensures formatted.None? ==> |r| == |FallbackPreamble| + |xml| && r[..|FallbackPreamble|] == FallbackPreamble
    ensures formatted.None? ==> r[|FallbackPreamble|..] == xml
  {
    match formatted
    case Some(pretty) => pretty
    case None => FallbackPreamble + xml
  }

  /** Two rejected texts give the same message only if they are the same text. */
  lemma FallbackKeepsText(a: string, b: string)
    requires FormatXml(a, None) == FormatXml(b, None)
    ensures a == b
  {
    assert a == FormatXml(a, None)[|FallbackPreamble|..];
  }

  // ---------------------------------------------------------------------------------------
  // The visitor object
  // ---------------------------------------------------------------------------------------

  /** XmlStructureDocumentVisitor with its builder and field-state fields updated in place. */
  class XmlStructureDocumentVisitor {
    var structureBuilder: string
    var skipRun: bool
    var skipFieldSeparator: bool
    var currentFieldTagName: string
    var currentDocumentProperty: string
    var currentDocumentVariable: string

    function State(): VisitorState
      reads this
    {
      VisitorState(structureBuilder, skipRun, skipFieldSeparator, currentFieldTagName,
                   currentDocumentProperty, currentDocumentVariable)
    }

    constructor()
      ensures State() == Initial
    {
      structureBuilder := "";
      skipRun := false;
      skipFieldSeparator := false;
      currentFieldTagName := "";
      currentDocumentProperty := "";
      currentDocumentVariable := "";
    }

    /** The AsXml getter, given the outcome of parsing the builder's text. */
    function AsXml(formatted: Option<string>): (r: string)
      reads this
      ensures formatted.None? ==> r == FallbackPreamble + State().output
    {
      FormatXml(structureBuilder, formatted)
    }

    method VisitRun(text: string)
      modifies this
      ensures State() == RunStep(old(State()), text)
    {
      if skipRun {
        skipRun := false;
        skipFieldSeparator := true;
      } else if PageBreak in text {
        structureBuilder := structureBuilder + "<PageBreak />" + NewLine;
      } else {
        structureBuilder := structureBuilder + RunLine(text);
      }
    }

    method VisitFieldStart(fieldType: FieldKind, nextSibling: Option<string>)
      returns (outcome: Result<(), VisitError>)
      modifies this
      ensures match FieldStartStep(old(State()), fieldType, nextSibling)
              case Ok(next) => outcome == Ok(()) && State() == next
              case Err(error) => outcome == Err(error) && State() == old(State())
    {
      if fieldType == DocProperty {
        var name := FieldName(DocumentPropertyPrefix, nextSibling);
        if name.Err? {
          return Err(name.error);
        }
        StartCollapsedField(XmlTagForDocumentProperty(name.value), name.value, true);
      } else if fieldType == DocVariable {
        var name := FieldName(DocumentVariablePrefix, nextSibling);
        if name.Err? {
          return Err(name.error);
        }
        StartCollapsedField(VariableTag, name.value, false);
      } else {
        structureBuilder := structureBuilder + "<FieldStart />" + NewLine;
      }
      outcome := Ok(());
    }

    /** The common tail of both collapsing branches of VisitFieldStart: record the name as the
        current property or variable, remember the tag, write the start tag, skip the code run. */
    method StartCollapsedField(tag: string, name: string, isProperty: bool)
      modifies this
      ensures State() == Started(old(State()), tag, name, isProperty)
    {
      if isProperty {
        currentDocumentProperty := name;
      } else {
        currentDocumentVariable := name;
      }
      currentFieldTagName := tag;
      structureBuilder := structureBuilder + FieldStartTag(tag, name);
      skipRun := true;
    }

    method VisitFieldSeparator()
      modifies this
      ensures State() == SeparatorStep(old(State()))
    {
      if skipFieldSeparator {
        skipFieldSeparator := false;
      } else {
        structureBuilder := structureBuilder + "<FieldSeparator />" + NewLine;
      }
    }

    method VisitFieldEnd()
      modifies this
      ensures State() == FieldEndStep(old(State()))
    {
      if currentDocumentProperty != "" {
        structureBuilder := structureBuilder + FieldEndTag(currentFieldTagName, currentDocumentProperty);
        currentDocumentProperty := "";
      } else if currentDocumentVariable != "" {
        structureBuilder := structureBuilder + FieldEndTag(currentFieldTagName, currentDocumentVariable);
        currentDocumentVariable := "";
      } else {
        structureBuilder := structureBuilder + "<FieldEnd />" + NewLine;
      }
    }

    /** Dispatches one callback to its handler; the stateless handlers append their line. */
    method Visit(e: DocEvent) returns (outcome: Result<(), VisitError>)
      modifies this
      ensures match Step(old(State()), e)
              case Ok(next) => outcome == Ok(()) && State() == next
              case Err(error) => outcome == Err(error) && State() == old(State())
    {
      match e
      case Run(text) =>
        VisitRun(text);
        outcome := Ok(());
      case FieldStart(fieldType, nextSibling) =>
        outcome := VisitFieldStart(fieldType, nextSibling);
      case FieldSeparator =>
        VisitFieldSeparator();
        outcome := Ok(());
      case FieldEnd =>
        VisitFieldEnd();
        outcome := Ok(());
      case _ =>
        StepMarkup(State(), e);
        VisitMarkup(e);
        outcome := Ok(());
    }

    /** The callbacks outside the field machine: each writes its one line. */
    method VisitMarkup(e: DocEvent)
      requires !IsFieldEvent(e)
      modifies this
      ensures State() == old(State()).(output := old(State()).output + Markup(e))
    {
      structureBuilder := structureBuilder + Markup(e);
    }
  }
}
