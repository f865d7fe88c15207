# AsposeVisualizer capture-and-render pipeline in Dafny

AsposeVisualizer is a Visual Studio debugger visualizer for Aspose.Words documents. It shows
a document's node structure as indented XML. This project models the pipeline behind that
view, in four parts.

- **Capture** (`capture.dfy`, `proxies.dfy`, `proxy_factory.dfy`). `ProxyDocumentVisitor`
  receives the document traversal's flat stream of start, end and leaf callbacks and rebuilds
  it as a tree of proxies.
  - It keeps the open composites on the `traversingParents` stack.
  - The first proxy becomes `Root`.
  - A start adds the new proxy to the proxy on top of the stack and pushes it.
  - A leaf is only added.
  - An end pops one proxy and checks that it is of the class the callback names.
  - Proxies are immutable values (`Proxies.Proxy`):
    - Document, Table and Row take only sections, rows and cells.
    - A section has a Body slot and header and footer lists.
    - Every other composite keeps a mixed, append-only child list.
  - `Accept` is the start / children in order / end trace of a tree.
  - The capture itself is a pure step function (`Capture.Step`) over a stack of frames.
    The class `Capture.ProxyDocumentVisitor` updates its fields as `Step` describes.
- **Node renderer** (`node_rendering.dfy`). `XmlStructureNodeVisitor` renders a proxy tree
  into markup under two display options: formatting and images. `Render` is the text that
  visiting a tree appends. The class and its `AcceptVisitor`/`AcceptChildren` methods build
  that text step by step and are proved to produce exactly `Render`.
- **Direct renderer** (`document_rendering.dfy`). `XmlStructureDocumentVisitor` writes markup
  straight from the document's own callbacks. It is a state machine over field callbacks that
  collapses DOCPROPERTY and DOCVARIABLE fields into named start and end tags. It also covers
  the field-name extraction, the built-in / custom classification and the fallback text for
  output that does not parse.
- **String helpers** (`xml_strings.dfy`): `Escape` and `EncapsulateWithQuotes`.

`wrappers.dfy` holds `Option` and `Result`. `sequences.dfy` holds two generic facts about
sequence concatenation.

Three things differ between call sites in this snapshot of the code. The model resolves each
as follows.

- `CreateSection` is declared without parameters (`ProxyFactory.cs:27-30`,
  `SectionProxy.cs:29-32`). The capture calls it with the orientation and the paper size
  (`ProxyDocumentVisitor.cs:71`), and the renderer prints both. The model gives a section
  these two strings.
- `CreateDrawingMl` takes a name in `ProxyFactory.cs:72`, but the capture calls it without
  one (`ProxyDocumentVisitor.cs:240`). In the model the factory takes a name, and the
  DrawingML callback carries the name the capture passes on.
- A second Body added to a section replaces the first (`SectionProxy.cs:50-53`). It is not an
  error.

## Model

| member | source | states |
|---|---|---|
| XmlStructureExtensions.Escape | source/AsposeVisualizer/XmlStructureExtensionMethods.cs:27-30 | no line-break character is left, and each one grows the text by the extra length of the new-line string; with EscapeLineBreak, EscapeDistributes and EscapeIdentity this determines the result completely |
| XmlStructureExtensions.EscapeLineBreak | source/AsposeVisualizer/XmlStructureExtensionMethods.cs:27-30 | a line-break character becomes the new-line string |
| XmlStructureExtensions.EscapeDistributes | source/AsposeVisualizer/XmlStructureExtensionMethods.cs:27-30 | replacement is character by character: escaping a concatenation is concatenating the escaped parts |
| XmlStructureExtensions.EscapeIdentity | source/AsposeVisualizer/XmlStructureExtensionMethods.cs:27-30 | text without a line-break character comes back unchanged |
| XmlStructureExtensions.EscapeIdempotent | source/AsposeVisualizer/XmlStructureExtensionMethods.cs:27-30 | escaping twice is the same as escaping once |
| XmlStructureExtensions.EncapsulateWithQuotes | source/AsposeVisualizer/XmlStructureExtensionMethods.cs:32-35 | the result is two characters longer, starts and ends with a double quote, and holds the subject unchanged in between (embedded quotes are not escaped) |
| Proxies.Add | source/AsposeVisualizer/DocumentProxy.cs:33-36 | every proxy class's `Add`: it succeeds exactly when the parent class accepts the child class, keeps the parent's class, and appends the child to a list parent while leaving everything else as it was; a section refusal is "not allowed in Section" and a Document/Table/Row refusal is a cast failure |
| Proxies.AddToSection | source/AsposeVisualizer/SectionProxy.cs:48-66 | a Body replaces the Body slot, a header or footer is appended to its own list, and any other class is refused with the child's class named |
| Proxies.AddToList | source/AsposeVisualizer/CellProxy.cs:45-48 | a list composite appends the child at the end and keeps its other fields; Table takes only rows, Row only cells and Document only sections, and any other child is a cast failure |
| Proxies.SectionAddChangesOneSlot | source/AsposeVisualizer/SectionProxy.cs:48-66 | a successful section `Add` keeps the format and changes exactly one of Body, headers or footers |
| Proxies.AttachedAppends | source/AsposeVisualizer/CellProxy.cs:45-48 | adding an accepted child to a list composite puts it last and keeps the earlier children |
| Proxies.AttachAllAppends | source/AsposeVisualizer/TableProxy.cs:33-36 | adding accepted children one by one appends them in insertion order after the existing ones |
| Proxies.Visited | source/AsposeVisualizer/SectionProxy.cs:68-75 | the proxies whose `Accept` a composite calls are visitable, and a leaf calls none; a section visits only its Body |
| Proxies.Accept | source/AsposeVisualizer/DocumentProxy.cs:38-48 | the callbacks a proxy's `Accept` makes, in order; AcceptShape, AcceptWellNested and RoundTrip state its properties |
| Proxies.AcceptAll | source/AsposeVisualizer/TableProxy.cs:42-45 | the loop over a child list: each child's `Accept` in list order; AcceptAllDistributes states it |
| Proxies.AcceptShape | source/AsposeVisualizer/DocumentProxy.cs:38-48 | a composite's trace is its start callback, then each visited child's trace in order, then its end callback; a leaf's trace is its one callback |
| Proxies.AcceptAllDistributes | source/AsposeVisualizer/TableProxy.cs:38-48 | the trace of a child list is the concatenation of the traces of its parts |
| Proxies.AcceptWellNested | source/AsposeVisualizer/CellProxy.cs:33-43 | every trace is well nested: each end callback closes the most recently opened proxy and nothing is left open |
| ProxyFactory.CreateDocument | source/AsposeVisualizer/ProxyFactory.cs:22-25 | a document with no sections |
| ProxyFactory.CreateSection | source/AsposeVisualizer/ProxyFactory.cs:27-30 | a section with no Body, headers or footers, formatted with the given orientation and paper size |
| ProxyFactory.CreateBody | source/AsposeVisualizer/ProxyFactory.cs:32-35 | an empty body |
| ProxyFactory.CreateParagraph | source/AsposeVisualizer/ProxyFactory.cs:37-40 | an empty paragraph |
| ProxyFactory.CreateTable | source/AsposeVisualizer/ProxyFactory.cs:42-45 | a table with no rows |
| ProxyFactory.CreateRun | source/AsposeVisualizer/ProxyFactory.cs:47-50 | a run holding the given text |
| ProxyFactory.CreateRow | source/AsposeVisualizer/ProxyFactory.cs:52-55 | a row with no cells |
| ProxyFactory.CreateCell | source/AsposeVisualizer/ProxyFactory.cs:57-60 | a cell with no children |
| ProxyFactory.CreateBookmarkStart | source/AsposeVisualizer/ProxyFactory.cs:62-65 | a bookmark start with the given name |
| ProxyFactory.CreateBookmarkEnd | source/AsposeVisualizer/ProxyFactory.cs:67-70 | a bookmark end with the given name |
| ProxyFactory.CreateDrawingMl | source/AsposeVisualizer/ProxyFactory.cs:72-75 | a DrawingML leaf with the given name and no image |
| ProxyFactory.CreateFieldStart | source/AsposeVisualizer/ProxyFactory.cs:77-80 | a field-start leaf |
| ProxyFactory.CreateFieldSeparator | source/AsposeVisualizer/ProxyFactory.cs:82-85 | a field-separator leaf |
| ProxyFactory.CreateFieldEnd | source/AsposeVisualizer/ProxyFactory.cs:87-90 | a field-end leaf |
| ProxyFactory.CreateShape | source/AsposeVisualizer/ProxyFactory.cs:92-95 | an empty shape with the given name and no image |
| ProxyFactory.CreateGroupShape | source/AsposeVisualizer/ProxyFactory.cs:97-100 | an empty group shape with the given name |
| ProxyFactory.CreateContentControl | source/AsposeVisualizer/ProxyFactory.cs:102-105 | an empty content control whose type and tag are the arguments |
| ProxyFactory.CreateHeader | source/AsposeVisualizer/ProxyFactory.cs:107-110 | an empty header of the given type, not linked to the previous one |
| ProxyFactory.CreateFooter | source/AsposeVisualizer/ProxyFactory.cs:112-115 | an empty footer of the given type, not linked to the previous one |
| ProxyFactory.ContentControlKeepsTypeAndTag | source/AsposeVisualizer/ContentControlProxy.cs:55-58 | adding children never changes a content control's type or tag |
| Capture.TypeLabel | source/AsposeVisualizer/ProxyDocumentVisitor.cs:30-38 | every header/footer type maps to one of the three labels Primary, First, Even |
| Capture.TypeLabelTable | source/AsposeVisualizer/ProxyDocumentVisitor.cs:30-38 | the table is six entries: the label together with the header/footer choice identifies the type, and header and footer variants share their label |
| Capture.Created | source/AsposeVisualizer/ProxyDocumentVisitor.cs:69-326 | the proxy a callback creates is a composite exactly for a start callback, and it is created empty |
| Capture.HeaderFooterStartCreates | source/AsposeVisualizer/ProxyDocumentVisitor.cs:105-121 | a header/footer start creates a header exactly when the type is a header type, otherwise a footer, labelled from the table |
| Capture.PushChild | source/AsposeVisualizer/ProxyDocumentVisitor.cs:336-348 | a composite start grows the stack by exactly one with the new proxy on top and the frames below unchanged; with `Root` set and an empty stack it fails in Peek; once set, `Root` is kept |
| Capture.AddLeaf | source/AsposeVisualizer/ProxyDocumentVisitor.cs:350-360 | a leaf keeps the stack depth; with `Root` set and an empty stack it fails in Peek; once set, `Root` is kept |
| Capture.PopChecked | source/AsposeVisualizer/ProxyDocumentVisitor.cs:328-334 | an end pops exactly one frame and fails exactly when the stack is empty or the popped proxy is not of the expected class; `Root` is kept or, when its frame is the one popped, becomes that finished proxy |
| Capture.Step | source/AsposeVisualizer/ProxyDocumentVisitor.cs:50-326 | one callback: starts push one frame, leaves keep the depth, ends pop one and fail exactly on an empty stack or a class mismatch (a header/footer end checks header or footer); only a document start moves `Root` |
| Capture.StepKeepsValid | source/AsposeVisualizer/ProxyDocumentVisitor.cs:336-360 | the stack invariant is preserved: every open frame holds a composite and `Root` points into the stack or at a finished proxy |
| Capture.FeedKeepsDiscipline | source/AsposeVisualizer/ProxyDocumentVisitor.cs:328-360 | after any callback stream that raises nothing, the invariant holds and the depth has grown by the starts minus the ends |
| Capture.FirstProxyBecomesRoot | source/AsposeVisualizer/ProxyDocumentVisitor.cs:336-360 | the first proxy becomes `Root` without a parent; after a leaf became `Root`, every later callback except a document start fails on the empty stack |
| Capture.DocumentStartDetaches | source/AsposeVisualizer/ProxyDocumentVisitor.cs:50-58 | a document start makes the new empty document `Root` and pushes it without adding it to any open proxy |
| Capture.CompositeStartAddsToTop | source/AsposeVisualizer/ProxyDocumentVisitor.cs:336-348 | a composite start that the top accepts pushes the new proxy, keeps `Root`, and the completed top then holds the new proxy as its last child |
| Capture.CompositeStartRefused | source/AsposeVisualizer/ProxyDocumentVisitor.cs:336-348 | a composite start that the top refuses raises exactly the error of the top's `Add` |
| Capture.LeafAddsToTop | source/AsposeVisualizer/ProxyDocumentVisitor.cs:350-360 | a leaf is appended to the top proxy's children, with the lower frames and `Root` unchanged |
| Proxies.HoldsAttached | source/AsposeVisualizer/SectionProxy.cs:48-66 | after an `Add` that the parent takes, the parent holds the child and everything below it (in its Body, header or footer list, or child list) |
| Capture.CloseHolds | source/AsposeVisualizer/ProxyDocumentVisitor.cs:336-348 | through a chain of open proxies each added to the one below, the bottom proxy holds whatever the top one holds |
| Capture.AddedShowsInRoot | source/AsposeVisualizer/ProxyDocumentVisitor.cs:336-360 | a proxy created below an open `Root`, through open proxies that each took the one above, is held by the tree `Root` shows right after its callback, leaf or composite |
| Capture.Feed | source/AsposeVisualizer/ProxyDocumentVisitor.cs:50-326 | the callbacks applied one after the other, stopping at the first exception; FeedAppend, FeedKeepsDiscipline and RoundTrip state its properties |
| Capture.RootView | source/AsposeVisualizer/ProxyDocumentVisitor.cs:48 | what `Root` refers to: nothing, a finished proxy, or the open proxy with the open proxies added above it; FirstProxyBecomesRoot, DocumentStartDetaches and AddedShowsInRoot state its properties |
| Capture.Close | source/AsposeVisualizer/ProxyDocumentVisitor.cs:336-348 | an open proxy together with the open proxies added above it; CloseHolds and CompositeStartAddsToTop state its properties |
| Capture.CreatedComposite | source/AsposeVisualizer/ProxyDocumentVisitor.cs:50-326 | each start callback's factory call creates an empty composite of the class it names, with the node's attributes |
| Capture.CreatedLeaf | source/AsposeVisualizer/ProxyDocumentVisitor.cs:157-272 | each leaf callback's factory call creates a leaf with the node's text or name |
| Capture.ClosedKind | source/AsposeVisualizer/ProxyDocumentVisitor.cs:328-334 | the class an end callback checks the popped proxy against (header or footer according to IsHeader); Step and EchoCloses state its use |
| Capture.EchoOpens | source/AsposeVisualizer/ProxyDocumentVisitor.cs:50-326 | the start callback for a factory-made composite is a start that recreates the proxy's empty version |
| Capture.EchoCreatesLeaf | source/AsposeVisualizer/ProxyDocumentVisitor.cs:157-272 | the callback for a factory-made leaf recreates that leaf |
| Capture.Refill | source/AsposeVisualizer/CellProxy.cs:33-48 | adding a composite's visited children, in order, to its empty version gives back the composite |
| Capture.ReplayOne | source/AsposeVisualizer/ProxyDocumentVisitor.cs:336-360 | replaying one subtree's trace below an open proxy that accepts it adds exactly that subtree to the proxy |
| Capture.RoundTrip | source/AsposeVisualizer/ProxyDocumentVisitor.cs:328-360 | feeding a tree's `Accept` trace into a fresh visitor raises nothing, empties the stack and leaves `Root` equal to the tree, so children come back in order |
| Capture.HeadersAndFootersAreLost | source/AsposeVisualizer/SectionProxy.cs:68-75 | a section comes back from the round trip with its format and Body and without its headers and footers |
| Capture.ProxyDocumentVisitor.constructor | source/AsposeVisualizer/ProxyDocumentVisitor.cs:41-48 | a new visitor has an empty stack and no `Root` |
| Capture.ProxyDocumentVisitor.Root | source/AsposeVisualizer/ProxyDocumentVisitor.cs:48 | `Root` is null exactly until the first proxy is created, and once its proxy has been popped it is that finished proxy; while open it is the view `RootView` gives, which AddedShowsInRoot relates to the callbacks |
| Capture.ProxyDocumentVisitor.Visit | source/AsposeVisualizer/ProxyDocumentVisitor.cs:50-326 | each callback raises exactly when `Step` fails, and otherwise leaves the state `Step` gives |
| Capture.ProxyDocumentVisitor.AddToHierarchy | source/AsposeVisualizer/ProxyDocumentVisitor.cs:336-348 | updates the stack and `Root` as `PushChild` gives, raising exactly when it fails |
| Capture.ProxyDocumentVisitor.AddLeafToHierarchy | source/AsposeVisualizer/ProxyDocumentVisitor.cs:350-360 | updates the stack and `Root` as `AddLeaf` gives, raising exactly when it fails |
| Capture.ProxyDocumentVisitor.PopAndEnsureLegalTreeTraversal | source/AsposeVisualizer/ProxyDocumentVisitor.cs:328-334 | pops and checks as `PopChecked` gives, raising exactly when it fails |
| NodeRendering.Attribute | source/AsposeVisualizer/XmlStructureNodeVisitor.cs:281-284 | one attribute is the name, then `=`, then the value between double quotes, unescaped |
| NodeRendering.FormatAttributes | source/AsposeVisualizer/XmlStructureNodeVisitor.cs:281-284 | the joined text is empty exactly when there are no attributes; otherwise it starts with the first attribute, followed by a single space when more follow |
| NodeRendering.FormatAttributesAppend | source/AsposeVisualizer/XmlStructureNodeVisitor.cs:281-284 | joining keeps argument order: two lists join as each list's text separated by one space |
| NodeRendering.StartTail | source/AsposeVisualizer/XmlStructureNodeVisitor.cs:54-216 | after a start tag's name comes either an attribute (after a space) or `>` |
| NodeRendering.LeafTail | source/AsposeVisualizer/XmlStructureNodeVisitor.cs:138-264 | after a leaf tag's name comes either an attribute (after a space) or `>` |
| NodeRendering.TagName | source/AsposeVisualizer/XmlStructureNodeVisitor.cs:44-279 | the element name each Visit* emitter writes for its proxy class |
| NodeRendering.StartFragment | source/AsposeVisualizer/XmlStructureNodeVisitor.cs:44-246 | what a start callback appends: a line break before a group shape, `<`, the element name and StartTail; StartTailOptions states its option dependence |
| NodeRendering.LeafFragment | source/AsposeVisualizer/XmlStructureNodeVisitor.cs:138-279 | what a leaf callback appends: `<`, the element name and LeafTail; LeafTailOptions states its option dependence |
| NodeRendering.EndFragment | source/AsposeVisualizer/XmlStructureNodeVisitor.cs:44-246 | what an end callback appends: the element's closing tag and a new line |
| NodeRendering.Fragment | source/AsposeVisualizer/XmlStructureNodeVisitor.cs:44-279 | the text one callback appends; FragmentOptions states its option dependence |
| NodeRendering.Render | source/AsposeVisualizer/XmlStructureNodeVisitor.cs:44-279 | the builder text after visiting a tree; RenderNesting and RenderLeaf state its shape and BuildXml that the visitor builds exactly it |
| NodeRendering.RenderAllAppend | source/AsposeVisualizer/XmlStructureNodeVisitor.cs:44-279 | callbacks only append to the builder: the text of two callback runs is the first's text followed by the second's |
| NodeRendering.RenderNesting | source/AsposeVisualizer/XmlStructureNodeVisitor.cs:218-246 | a composite renders as its start fragment, its visited children's text in order, and its closing tag |
| NodeRendering.RenderLeaf | source/AsposeVisualizer/XmlStructureNodeVisitor.cs:138-170 | a leaf renders as its one fragment |
| NodeRendering.FragmentOptions | source/AsposeVisualizer/XmlStructureNodeVisitor.cs:54-264 | a callback's text depends on the formatting option exactly for section and paragraph starts and runs, and on the image option exactly for shape starts and DrawingML; turning an option on only lengthens it |
| NodeRendering.StartTailOptions | source/AsposeVisualizer/XmlStructureNodeVisitor.cs:54-216 | section and paragraph attributes appear only with formatting, the shape's image element only with images; header, footer, content control and group shape attributes always appear |
| NodeRendering.LeafTailOptions | source/AsposeVisualizer/XmlStructureNodeVisitor.cs:138-264 | run attributes appear only with formatting, the DrawingML image only with images; bookmark attributes always appear |
| NodeRendering.RenderAllOptions | source/AsposeVisualizer/XmlStructureNodeVisitor.cs:54-264 | over a whole traversal, showing less never lengthens the text, and the text is the same exactly when no callback's fragment depends on the differing options |
| NodeRendering.FormattingOnlyAddsText | source/AsposeVisualizer/XmlStructureNodeVisitor.cs:54-159 | formatting off prints at most what formatting on prints, and the same exactly when no section, paragraph or run is visited |
| NodeRendering.ImagesOnlyAddText | source/AsposeVisualizer/XmlStructureNodeVisitor.cs:197-264 | images off prints at most what images on prints, and the same exactly when no shape or DrawingML is visited |
| NodeRendering.XmlStructureNodeVisitor.constructor | source/AsposeVisualizer/XmlStructureNodeVisitor.cs:31-34 | a new visitor keeps its options and has an empty builder |
| NodeRendering.XmlStructureNodeVisitor.Visit | source/AsposeVisualizer/XmlStructureNodeVisitor.cs:44-279 | each callback appends its fragment to the builder and changes nothing already written |
| NodeRendering.AcceptVisitor | source/AsposeVisualizer/CellProxy.cs:33-43 | accepting a visitor appends exactly the tree's rendered text to the builder |
| NodeRendering.AcceptChildren | source/AsposeVisualizer/TableProxy.cs:38-48 | the loop over a composite's children appends their rendered texts in order (a section's: its Body's) |
| NodeRendering.BuildXml | source/AsposeVisualizer/XmlStructureNodeVisitor.cs:36-42 | the builder text of a fresh visitor after accepting a tree is the tree's rendered text |
| DocumentRendering.TrimStart | source/AsposeVisualizer/XmlStructureDocumentVisitor.cs:448-455 | the longest suffix not starting with white space; only white space is dropped |
| DocumentRendering.TrimEnd | source/AsposeVisualizer/XmlStructureDocumentVisitor.cs:448-455 | the longest prefix not ending with white space; only white space is dropped |
| DocumentRendering.Trim | source/AsposeVisualizer/XmlStructureDocumentVisitor.cs:448-455 | the result neither starts nor ends with white space and is no longer than the input |
| DocumentRendering.TrimPadded | source/AsposeVisualizer/XmlStructureDocumentVisitor.cs:448-464 | trimming white-space padding around trimmed text gives back that text |
| DocumentRendering.TrimIdempotent | source/AsposeVisualizer/XmlStructureDocumentVisitor.cs:448-464 | trimming twice is trimming once |
| DocumentRendering.FieldName | source/AsposeVisualizer/XmlStructureDocumentVisitor.cs:448-464 | the name fails with a null reference exactly when the next sibling is not a run, fails as out of range exactly when its text is shorter than the prefix plus one, and is otherwise trimmed and no longer than the rest of the text |
| DocumentRendering.FieldNameOfCode | source/AsposeVisualizer/XmlStructureDocumentVisitor.cs:448-455 | a field code of any lead of prefix length plus one, then a white-space padded name, yields exactly that name |
| DocumentRendering.XmlTagForDocumentProperty | source/AsposeVisualizer/XmlStructureDocumentVisitor.cs:443-446 | the built-in tag exactly for a built-in property name, the custom tag exactly for every other name |
| DocumentRendering.IdentifiersNotValues | source/AsposeVisualizer/XmlStructureDocumentVisitor.cs:466-478 | the identifiers of BuiltInDocumentPropertyNames are compared, case-sensitively: "ContentType" is built-in, "title" and the spaced values such as "Content Type" are custom |
| DocumentRendering.EmptyNameIsCustom | source/AsposeVisualizer/XmlStructureDocumentVisitor.cs:443-446 | an empty name is classified as custom |
| DocumentRendering.RunStep | source/AsposeVisualizer/XmlStructureDocumentVisitor.cs:188-208 | a run after a collapsed field start writes nothing, clears the run skip and arms the separator skip; any other run writes a page-break tag if its text holds a page break, else its unescaped text between Run tags |
| DocumentRendering.FieldStartStep | source/AsposeVisualizer/XmlStructureDocumentVisitor.cs:273-295 | a field start fails exactly when it is a DOCPROPERTY or DOCVARIABLE field whose name cannot be extracted; otherwise it writes a line, arms the run skip exactly for those two field types, and remembers one of the three field tags; any other field writes a bare field-start line and changes no field state |
| DocumentRendering.SeparatorStep | source/AsposeVisualizer/XmlStructureDocumentVisitor.cs:317-329 | an armed separator skip swallows the separator and is cleared; otherwise a field-separator tag is written |
| DocumentRendering.FieldEndStep | source/AsposeVisualizer/XmlStructureDocumentVisitor.cs:297-315 | a pending property is closed first, else a pending variable, each under the current field tag and then cleared; with neither pending a bare field-end tag is written |
| DocumentRendering.Markup | source/AsposeVisualizer/XmlStructureDocumentVisitor.cs:53-441 | the fixed line each callback outside the field machine writes (shape sizes, section paper size, paragraph style, content-control title and bookmark names as attributes, the rest as bare tags); StepMarkup and FeedMarkup state its use |
| DocumentRendering.Step | source/AsposeVisualizer/XmlStructureDocumentVisitor.cs:53-441 | one callback dispatched to its handler; StepFails, StepOnlyAppends and StepKeepsConsistent state its properties |
| DocumentRendering.Feed | source/AsposeVisualizer/XmlStructureDocumentVisitor.cs:53-441 | the callbacks one after the other, stopping at the first exception; FeedOnlyAppends, FeedKeepsConsistent and the collapse lemmas state its properties |
| DocumentRendering.StepFails | source/AsposeVisualizer/XmlStructureDocumentVisitor.cs:273-295 | only a collapsed field start can raise, exactly when its name cannot be extracted |
| DocumentRendering.StepOnlyAppends | source/AsposeVisualizer/XmlStructureDocumentVisitor.cs:53-441 | every callback only appends to the output |
| DocumentRendering.FeedOnlyAppends | source/AsposeVisualizer/XmlStructureDocumentVisitor.cs:53-441 | output already written is never changed by later callbacks |
| DocumentRendering.StepMarkup | source/AsposeVisualizer/XmlStructureDocumentVisitor.cs:53-186 | a callback outside the field machine appends its line and leaves the field state alone |
| DocumentRendering.FeedMarkup | source/AsposeVisualizer/XmlStructureDocumentVisitor.cs:53-441 | a stream without field callbacks writes its lines in order and leaves the field state alone |
| DocumentRendering.StepKeepsConsistent | source/AsposeVisualizer/XmlStructureDocumentVisitor.cs:273-315 | the current field tag is always empty or one of the three field tags |
| DocumentRendering.FeedKeepsConsistent | source/AsposeVisualizer/XmlStructureDocumentVisitor.cs:273-315 | the same over any stream that raises nothing |
| DocumentRendering.PropertyStartRecorded | source/AsposeVisualizer/XmlStructureDocumentVisitor.cs:273-295 | a DOCPROPERTY start records the name and its built-in or custom tag, writes the named start tag and arms the run skip |
| DocumentRendering.VariableStartRecorded | source/AsposeVisualizer/XmlStructureDocumentVisitor.cs:273-295 | a DOCVARIABLE start records the name under the variable tag, writes the start tag and arms the run skip |
| DocumentRendering.CodeRunSwallowed | source/AsposeVisualizer/XmlStructureDocumentVisitor.cs:188-194 | the run after a collapsed start writes nothing and hands the skip on to the separator |
| DocumentRendering.SeparatorSwallowed | source/AsposeVisualizer/XmlStructureDocumentVisitor.cs:317-329 | an armed separator skip swallows exactly one separator |
| DocumentRendering.ResultRunWritten | source/AsposeVisualizer/XmlStructureDocumentVisitor.cs:195-205 | any other run without a page break writes its unescaped text between Run tags |
| DocumentRendering.PropertyEndWritten | source/AsposeVisualizer/XmlStructureDocumentVisitor.cs:297-315 | a field end closes a pending property under the current tag and clears it |
| DocumentRendering.VariableEndWritten | source/AsposeVisualizer/XmlStructureDocumentVisitor.cs:297-315 | with no property pending, a field end closes a pending variable and clears it |
| DocumentRendering.BareFieldEnd | source/AsposeVisualizer/XmlStructureDocumentVisitor.cs:297-315 | with nothing pending, a field end writes a bare field-end tag |
| DocumentRendering.DocPropertyCollapses | source/AsposeVisualizer/XmlStructureDocumentVisitor.cs:188-329 | a whole DOCPROPERTY field (start, code run, separator, result run, end) writes its named start tag, the result run and its named end tag, and leaves nothing skipped or pending |
| DocumentRendering.DocVariableCollapses | source/AsposeVisualizer/XmlStructureDocumentVisitor.cs:188-329 | the same for a DOCVARIABLE field when no property is pending |
| DocumentRendering.EmptyPropertyNameEndsBare | source/AsposeVisualizer/XmlStructureDocumentVisitor.cs:297-315 | a DOCPROPERTY field with an empty name still writes a custom start tag, but its end is written as a bare field end |
| DocumentRendering.FormatXml | source/AsposeVisualizer/XmlStructureDocumentVisitor.cs:480-499 | parsed text is returned as re-printed; text that does not parse is returned unchanged after the fixed diagnostic preamble |
| DocumentRendering.FallbackKeepsText | source/AsposeVisualizer/XmlStructureDocumentVisitor.cs:480-499 | the fallback loses nothing: different texts give different messages |
| DocumentRendering.XmlStructureDocumentVisitor.constructor | source/AsposeVisualizer/XmlStructureDocumentVisitor.cs:41-46 | a new visitor has written nothing, skips nothing and has no field pending |
| DocumentRendering.XmlStructureDocumentVisitor.AsXml | source/AsposeVisualizer/XmlStructureDocumentVisitor.cs:48-51 | text that does not parse is shown after the preamble, exactly as built |
| DocumentRendering.XmlStructureDocumentVisitor.VisitRun | source/AsposeVisualizer/XmlStructureDocumentVisitor.cs:188-208 | updates the builder and flags as `RunStep` gives |
| DocumentRendering.XmlStructureDocumentVisitor.VisitFieldStart | source/AsposeVisualizer/XmlStructureDocumentVisitor.cs:273-295 | raises exactly when `FieldStartStep` fails, leaving the state untouched, and otherwise updates it as `FieldStartStep` gives |
| DocumentRendering.XmlStructureDocumentVisitor.StartCollapsedField | source/AsposeVisualizer/XmlStructureDocumentVisitor.cs:273-295 | records the name and tag, writes the start tag and arms the run skip |
| DocumentRendering.XmlStructureDocumentVisitor.VisitFieldSeparator | source/AsposeVisualizer/XmlStructureDocumentVisitor.cs:317-329 | updates the state as `SeparatorStep` gives |
| DocumentRendering.XmlStructureDocumentVisitor.VisitFieldEnd | source/AsposeVisualizer/XmlStructureDocumentVisitor.cs:297-315 | updates the state as `FieldEndStep` gives |
| DocumentRendering.XmlStructureDocumentVisitor.Visit | source/AsposeVisualizer/XmlStructureDocumentVisitor.cs:53-441 | every callback raises exactly when `Step` fails and otherwise leaves the state `Step` gives |
| DocumentRendering.XmlStructureDocumentVisitor.VisitMarkup | source/AsposeVisualizer/XmlStructureDocumentVisitor.cs:53-271 | a callback outside the field machine appends its one line and changes no flag |

## Left out

- Aspose.Words itself is not part of this model: its `DocumentVisitor` traversal order, its
  node classes, `NextSibling`, `FieldType` and the `ControlChar` constants. The callbacks are
  an abstract datatype (`Capture.Callback`, `DocumentRendering.DocEvent`). They carry the
  node data each handler reads as opaque strings, including the `ToString()` of Orientation,
  PaperSize and the content-control type.
- Parsing and pretty-printing with `XElement` is a foreign XML library. `FormatXml` and
  `AsXml` take the parser's outcome as a parameter. The node visitor's `AsXml` (which has no
  fallback and throws) is modelled only as its raw builder text (`NodeRendering.BuildXml`).
- Number formatting of shape width and height, run font size and language enters as
  already formatted strings.
- The reflection in `GetConstantsOf` is replaced by the constant set of the thirteen
  identifiers of BuiltInDocumentPropertyNames.
- Proxies are values, not shared mutable objects, so aliasing is not modelled. The capture
  keeps each open proxy in its stack frame and adds it to its parent when it is popped,
  instead of adding it when it is pushed. Once every proxy is closed the resulting tree is
  the same, but an open parent does not show its still-open child.
- Capture.ProxyDocumentVisitor.Visit: the state after an exception is not described, because
  the traversal stops there. The same holds for AddToHierarchy, AddLeafToHierarchy and
  PopAndEnsureLegalTreeTraversal.
- Proxies.Add: a leaf proxy (for which the source has no `Add`) is refused with `NotComposite`.
  The capture never reaches that case, because leaves are never pushed.
- The setters of `ShapeProxy.Image` and of a header's or footer's `IsLinkedToPrevious` are not
  modelled. Nothing in the capture calls them; a proxy is created with no image and not linked.
- The paragraph and run formats that the factory allocates are fixed values with empty
  strings.
- A string that may be null in the source is the empty string in the model. Every place that
  reads such a string treats null and "" alike (string concatenation, `string.IsNullOrEmpty`,
  `String.Format`).
- DocumentRendering.FieldName: only the length of the DOCPROPERTY/DOCVARIABLE prefix is used,
  as in the source; the dropped characters are never compared with it.
- Proxies.Accept requires every section in the tree to have a Body, because the source
  dereferences a null Body.
- NodeRendering.FormattingOnlyAddsText and NodeRendering.ImagesOnlyAddText are stated over a
  traversal's callback sequence; a tree's text is that of `Accept(p)`'s sequence.
- The Visual Studio host, its dialog, the WPF view model and its clipboard are not part of
  this model.
