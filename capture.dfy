/** ProxyDocumentVisitor: rebuilds a proxy tree from the flat stream of callbacks that
    Aspose's DocumentVisitor makes while it walks a document.

    The visitor keeps a stack of the composites that are open (`traversingParents`) and a
    `Root`. A composite's start callback creates its proxy, adds it to the proxy on top of
    the stack and pushes it; a leaf callback adds its proxy to the top without pushing; an
    end callback pops one proxy and throws when it is not of the class the callback names.
    The first proxy created while `Root` is null becomes `Root`; a document start always
    becomes `Root`.

    Proxies are values here, so a child cannot be filled through a reference after it was
    added. A start callback therefore checks at once that the parent's `Add` takes the new
    proxy (it fails exactly when the source's `Add` throws) and the frame records that the
    proxy belongs to the frame below; the value is added there when the proxy's end
    callback pops it. `RootView` closes the open frames and yields the tree the source's
    `Root` refers to at that moment. */
module Capture {
  import Sequences
  import opened Wrappers
  import opened Proxies
  import opened ProxyFactory

  /** Aspose's HeaderFooterType. */
  datatype HeaderFooterType = HeaderPrimary | HeaderFirst | HeaderEven | FooterPrimary | FooterFirst | FooterEven

  predicate IsHeader(t: HeaderFooterType)
  {
    t.HeaderPrimary? || t.HeaderFirst? || t.HeaderEven?
  }

  predicate IsLabel(s: string)
  {
    s == "Primary" || s == "First" || s == "Even"
  }

  /** The HeaderFooterTypes table: the label a header or footer proxy is created with. */
  function TypeLabel(t: HeaderFooterType): (r: string)
    ensures IsLabel(r)
  {
    match t
    case HeaderPrimary => "Primary"
    case HeaderFirst => "First"
    case HeaderEven => "Even"
    case FooterPrimary => "Primary"
    case FooterFirst => "First"
    case FooterEven => "Even"
  }

  /** A header and a footer of the same position share their label, and the label together
      with IsHeader tells the six types apart. */
  lemma TypeLabelTable(a: HeaderFooterType, b: HeaderFooterType)
    ensures TypeLabel(a) == TypeLabel(b) && IsHeader(a) == IsHeader(b) <==> a == b
    ensures TypeLabel(HeaderPrimary) == TypeLabel(FooterPrimary)
    ensures TypeLabel(HeaderFirst) == TypeLabel(FooterFirst)
    ensures TypeLabel(HeaderEven) == TypeLabel(FooterEven)
  {
  }

  /** The callbacks of DocumentVisitor that ProxyDocumentVisitor overrides, with the data of
      the Aspose node each one reads (enum values as their names). */
  datatype Callback =
    | VisitDocumentStart | VisitDocumentEnd
    | VisitSectionStart(orientation: string, paperSize: string) | VisitSectionEnd
    | VisitBodyStart | VisitBodyEnd
    | VisitHeaderFooterStart(startType: HeaderFooterType) | VisitHeaderFooterEnd(endType: HeaderFooterType)
    | VisitParagraphStart | VisitParagraphEnd
    | VisitRun(text: string)
    | VisitBookmarkStart(bookmarkStartName: string)
    | VisitBookmarkEnd(bookmarkEndName: string)
    | VisitTableStart | VisitTableEnd
    | VisitRowStart | VisitRowEnd
    | VisitCellStart | VisitCellEnd
    | VisitDrawingMl(drawingMlName: string)
    | VisitFieldStart | VisitFieldSeparator | VisitFieldEnd
    | VisitShapeStart(shapeName: string) | VisitShapeEnd
    | VisitGroupShapeStart(groupShapeName: string) | VisitGroupShapeEnd
    | VisitStructuredDocumentTagStart(sdtType: string, tag: string) | VisitStructuredDocumentTagEnd

  /** Start callbacks of composites. */
  predicate Opens(c: Callback)
  {
    c.VisitDocumentStart? || c.VisitSectionStart? || c.VisitBodyStart? || c.VisitHeaderFooterStart?
    || c.VisitParagraphStart? || c.VisitTableStart? || c.VisitRowStart? || c.VisitCellStart?
    || c.VisitShapeStart? || c.VisitGroupShapeStart? || c.VisitStructuredDocumentTagStart?
  }

  /** Callbacks of leaves: run, bookmark start and end, DrawingML, field start, separator and end. */
  predicate IsLeafCallback(c: Callback)
  {
    c.VisitRun? || c.VisitBookmarkStart? || c.VisitBookmarkEnd? || c.VisitDrawingMl?
    || c.VisitFieldStart? || c.VisitFieldSeparator? || c.VisitFieldEnd?
  }

  /** End callbacks of composites. */
  predicate Closes(c: Callback)
  {
    !Opens(c) && !IsLeafCallback(c)
  }

  /** The proxy a start or leaf callback obtains from the factory. */
  function Created(c: Callback): (r: Proxy)
    requires Opens(c) || IsLeafCallback(c)
    ensures IsComposite(KindOf(r)) <==> Opens(c)
    ensures Emptied(r) == r
  {
    if Opens(c) then CreatedComposite(c) else CreatedLeaf(c)
  }

  function CreatedComposite(c: Callback): (r: Proxy)
    requires Opens(c)
    ensures IsComposite(KindOf(r)) && Emptied(r) == r
  {
    match c
    case VisitDocumentStart => CreateDocument()
    case VisitSectionStart(orientation, paperSize) => CreateSection(orientation, paperSize)
    case VisitBodyStart => CreateBody()
    case VisitHeaderFooterStart(t) =>
      if IsHeader(t) then CreateHeader(TypeLabel(t)) else CreateFooter(TypeLabel(t))
    case VisitParagraphStart => CreateParagraph()
    case VisitTableStart => CreateTable()
    case VisitRowStart => CreateRow()
    case VisitCellStart => CreateCell()
    case VisitShapeStart(name) => CreateShape(name)
    case VisitGroupShapeStart(name) => CreateGroupShape(name)
    case VisitStructuredDocumentTagStart(sdtType, tag) => CreateContentControl(sdtType, tag)
  }

  function CreatedLeaf(c: Callback): (r: Proxy)
    requires IsLeafCallback(c)
    ensures !IsComposite(KindOf(r)) && Emptied(r) == r
  {
    match c
    case VisitRun(text) => CreateRun(text)
    case VisitBookmarkStart(name) => CreateBookmarkStart(name)
    case VisitBookmarkEnd(name) => CreateBookmarkEnd(name)
    case VisitDrawingMl(name) => CreateDrawingMl(name)
    case VisitFieldStart => CreateFieldStart()
    case VisitFieldSeparator => CreateFieldSeparator()
    case VisitFieldEnd => CreateFieldEnd()
  }

  /** A header/footer start creates a header proxy exactly when the Aspose node is a header,
      labelled through the HeaderFooterTypes table, not linked to the previous section. */
  lemma HeaderFooterStartCreates(t: HeaderFooterType)
    ensures Created(VisitHeaderFooterStart(t)).Header? <==> IsHeader(t)
    ensures Created(VisitHeaderFooterStart(t)).Footer? <==> !IsHeader(t)
    ensures var p := Created(VisitHeaderFooterStart(t));
      (if p.Header? then p.headerType else p.footerType) == TypeLabel(t) && !p.isLinkedToPrevious
  {
  }

  /** The proxy class an end callback expects to pop (EnsureLegalTreeTraversal). */
  function ClosedKind(c: Callback): Kind
    requires Closes(c)
  {
    match c
    case VisitDocumentEnd => DocumentKind
    case VisitSectionEnd => SectionKind
    case VisitBodyEnd => BodyKind
    case VisitHeaderFooterEnd(t) => if IsHeader(t) then HeaderKind else FooterKind
    case VisitParagraphEnd => ParagraphKind
    case VisitTableEnd => TableKind
    case VisitRowEnd => RowKind
    case VisitCellEnd => CellKind
    case VisitShapeEnd => ShapeKind
    case VisitGroupShapeEnd => GroupShapeKind
    case VisitStructuredDocumentTagEnd => ContentControlKind
  }

  /** One entry of `traversingParents`: an open composite, and whether its start callback
      added it to the entry below (a document never is; neither is the first composite
      when it becomes `Root`). */
  datatype Frame = Frame(node: Proxy, attached: bool)

  /** What `Root` refers to: nothing yet, the open composite at a stack position, or a
      proxy that is no longer on the stack. */
  datatype RootSlot = Unset | OpenAt(index: nat) | Closed(tree: Proxy)

  datatype CaptureState = CaptureState(traversingParents: seq<Frame>, root: RootSlot)

  /** The exceptions a callback throws: Peek or Pop on an empty stack, the
      "Illegal tree traversal detected" check, or the parent's `Add`. */
  datatype CaptureError =
    | EmptyStack
    | IllegalTraversal(expected: Kind, actual: Kind)
    | Refused(reason: AddError)

  const Initial: CaptureState := CaptureState([], Unset)

  function Top(s: CaptureState): Frame
    requires s.traversingParents != []
  {
    s.traversingParents[|s.traversingParents| - 1]
  }

  /** AddToHierarchy: a new composite becomes `Root` when there is none; otherwise the
      proxy on top of the stack must take it. Either way it is pushed. */
  function PushChild(s: CaptureState, proxy: Proxy): (r: Result<CaptureState, CaptureError>)
    ensures r.Ok? ==>
      |r.value.traversingParents| == |s.traversingParents| + 1
      && r.value.traversingParents[..|s.traversingParents|] == s.traversingParents
      && Top(r.value).node == proxy
    ensures !s.root.Unset? && s.traversingParents == [] ==> r == Err(EmptyStack)
    ensures r.Ok? && !s.root.Unset? ==> r.value.root == s.root
  {
    if s.root.Unset? then
      Ok(CaptureState(s.traversingParents + [Frame(proxy, false)], OpenAt(|s.traversingParents|)))
    else if s.traversingParents == [] then Err(EmptyStack)
    else match Add(Top(s).node, proxy)
      case Err(e) => Err(Refused(e))
      case Ok(_) => Ok(CaptureState(s.traversingParents + [Frame(proxy, true)], s.root))
  }

  /** AddLeafToHierarchy: a new leaf becomes `Root` when there is none; otherwise the proxy
      on top of the stack must take it. Nothing is pushed. */
  function AddLeaf(s: CaptureState, leaf: Proxy): (r: Result<CaptureState, CaptureError>)
    ensures r.Ok? ==> |r.value.traversingParents| == |s.traversingParents|
    ensures !s.root.Unset? && s.traversingParents == [] ==> r == Err(EmptyStack)
    ensures r.Ok? && !s.root.Unset? ==> r.value.root == s.root
  {
    if s.root.Unset? then Ok(CaptureState(s.traversingParents, Closed(leaf)))
    else if s.traversingParents == [] then Err(EmptyStack)
    else match Add(Top(s).node, leaf)
      case Err(e) => Err(Refused(e))
      case Ok(updated) =>
        var n := |s.traversingParents|;
        Ok(CaptureState(s.traversingParents[..n - 1] + [Frame(updated, Top(s).attached)], s.root))
  }

  /** Pop followed by EnsureLegalTreeTraversal. The popped proxy is complete: when its start
      added it to the frame below, it is added there now. */
  function PopChecked(s: CaptureState, expected: Kind): (r: Result<CaptureState, CaptureError>)
    ensures r.Ok? ==> |r.value.traversingParents| == |s.traversingParents| - 1
    ensures r.Err? <==> s.traversingParents == [] || KindOf(Top(s).node) != expected
    ensures r.Ok? ==>
      r.value.root == s.root
      || (s.root == OpenAt(|s.traversingParents| - 1) && r.value.root == Closed(Top(s).node))
  {
    if s.traversingParents == [] then Err(EmptyStack)
    else
      var n := |s.traversingParents|;
      var top := Top(s);
      var below := s.traversingParents[..n - 1];
      if KindOf(top.node) != expected then Err(IllegalTraversal(expected, KindOf(top.node)))
      else
        var stack :=
          if top.attached && below != [] then
            below[..n - 2] + [Frame(Attached(below[n - 2].node, top.node), below[n - 2].attached)]
          else below;
        Ok(CaptureState(stack, if s.root == OpenAt(n - 1) then Closed(top.node) else s.root))
  }

  /** One callback of ProxyDocumentVisitor. A start pushes exactly one frame and leaves the
      frames below it as they were; a leaf keeps the depth; an end pops exactly one frame and
      fails exactly when the stack is empty or the popped proxy is of the wrong class. Only a
      document start moves `Root` to a new proxy: otherwise, once set, `Root` stays, or the
      frame it referred to is the one popped and it keeps that proxy. */
  function Step(s: CaptureState, c: Callback): (r: Result<CaptureState, CaptureError>)
    ensures r.Ok? && Opens(c) ==>
      |r.value.traversingParents| == |s.traversingParents| + 1
      && r.value.traversingParents[..|s.traversingParents|] == s.traversingParents
      && Top(r.value).node == Created(c)
    ensures r.Ok? && IsLeafCallback(c) ==> |r.value.traversingParents| == |s.traversingParents|
    ensures r.Ok? && Closes(c) ==> |r.value.traversingParents| == |s.traversingParents| - 1
    ensures Closes(c) ==>
      (r.Err? <==> s.traversingParents == [] || KindOf(Top(s).node) != ClosedKind(c))
    ensures !Closes(c) && !c.VisitDocumentStart? && !s.root.Unset? && s.traversingParents == [] ==>
      r == Err(EmptyStack)
    ensures r.Ok? && !c.VisitDocumentStart? && !s.root.Unset? ==>
      r.value.root == s.root
      || (Closes(c) && s.root == OpenAt(|s.traversingParents| - 1) && r.value.root == Closed(Top(s).node))
  {
    if c.VisitDocumentStart? then
      Ok(CaptureState(s.traversingParents + [Frame(CreateDocument(), false)], OpenAt(|s.traversingParents|)))
    else if Opens(c) then PushChild(s, Created(c))
    else if IsLeafCallback(c) then AddLeaf(s, Created(c))
    else PopChecked(s, ClosedKind(c))
  }

  /** The callbacks one after the other, stopping at the first exception. */
  function Feed(s: CaptureState, cs: seq<Callback>): Result<CaptureState, CaptureError>
    decreases |cs|
  {
    if cs == [] then Ok(s)
    else match Step(s, cs[0])
      case Err(e) => Err(e)
      case Ok(t) => Feed(t, cs[1..])
  }

  lemma {:induction false} FeedAppend(s: CaptureState, a: seq<Callback>, b: seq<Callback>)
    ensures Feed(s, a + b) == match Feed(s, a) { case Ok(t) => Feed(t, b) case Err(e) => Err(e) }
    decreases |a|
  {
    if a == [] {
      assert a + b == b;
    } else {
      Sequences.ConcatTail(a, b);
      match Step(s, a[0]) {
        case Err(e) =>
        case Ok(t) => FeedAppend(t, a[1..], b);
      }
    }
  }

  /** The proxy `Root` refers to: a frame's proxy together with the open frames above it
      that were added to it. */
  function Close(frames: seq<Frame>): Proxy
    requires frames != []
    decreases |frames|
  {
    if |frames| == 1 then frames[0].node
    else if frames[1].attached then Attached(frames[0].node, Close(frames[1..]))
    else frames[0].node
  }

  function RootView(s: CaptureState): Option<Proxy>
  {
    match s.root
    case Unset => None
    case Closed(tree) => Some(tree)
    case OpenAt(i) => if i < |s.traversingParents| then Some(Close(s.traversingParents[i..])) else None
  }

  /** The stack discipline: every entry is a composite, `Root` is null only before anything
      was pushed, and an open `Root` is on the stack. */
  predicate Valid(s: CaptureState)
  {
    (forall i | 0 <= i < |s.traversingParents| :: IsComposite(KindOf(s.traversingParents[i].node)))
    && (s.root.Unset? ==> s.traversingParents == [])
    && (s.root.OpenAt? ==> s.root.index < |s.traversingParents|)
  }

  lemma AttachedKeepsKind(parent: Proxy, child: Proxy)
    ensures KindOf(Attached(parent, child)) == KindOf(parent)
  {
  }

  /** Every callback keeps the stack discipline. */
  lemma StepKeepsValid(s: CaptureState, c: Callback)
    requires Valid(s) && Step(s, c).Ok?
    ensures Valid(Step(s, c).value)
  {
    if c.VisitDocumentStart? {
    } else if Opens(c) {
      PushChildKeepsValid(s, Created(c));
    } else if IsLeafCallback(c) {
      AddLeafKeepsValid(s, Created(c));
    } else {
      PopCheckedKeepsValid(s, ClosedKind(c));
    }
  }

  lemma PushChildKeepsValid(s: CaptureState, proxy: Proxy)
    requires Valid(s) && IsComposite(KindOf(proxy)) && PushChild(s, proxy).Ok?
    ensures Valid(PushChild(s, proxy).value)
  {
  }

  lemma AddLeafKeepsValid(s: CaptureState, leaf: Proxy)
    requires Valid(s) && AddLeaf(s, leaf).Ok?
    ensures Valid(AddLeaf(s, leaf).value)
  {
    if !s.root.Unset? {
      AttachedKeepsKind(Top(s).node, leaf);
      assert Add(Top(s).node, leaf).Ok?;
    }
  }

  lemma PopCheckedKeepsValid(s: CaptureState, expected: Kind)
    requires Valid(s) && PopChecked(s, expected).Ok?
    ensures Valid(PopChecked(s, expected).value)
  {
    var n := |s.traversingParents|;
    if n >= 2 {
      AttachedKeepsKind(s.traversingParents[n - 2].node, Top(s).node);
    }
  }

  function OpenCount(cs: seq<Callback>): nat
  {
    if cs == [] then 0 else (if Opens(cs[0]) then 1 else 0) + OpenCount(cs[1..])
  }

  function CloseCount(cs: seq<Callback>): nat
  {
    if cs == [] then 0 else (if Closes(cs[0]) then 1 else 0) + CloseCount(cs[1..])
  }

  /** Across any run of callbacks that raises no exception, the stack stays well formed and
      its depth grows by the number of starts minus the number of ends. */
  lemma {:induction false} FeedKeepsDiscipline(s: CaptureState, cs: seq<Callback>)
    requires Valid(s) && Feed(s, cs).Ok?
    ensures Valid(Feed(s, cs).value)
    ensures |Feed(s, cs).value.traversingParents| == |s.traversingParents| + OpenCount(cs) - CloseCount(cs)
    decreases |cs|
  {
    if cs != [] {
      var t := Step(s, cs[0]).value;
      StepKeepsValid(s, cs[0]);
      FeedKeepsDiscipline(t, cs[1..]);
    }
  }

  /** The first proxy ever created becomes `Root` and is attached to nothing. A leaf that
      became `Root` leaves the stack empty, so every later callback except a document start
      fails in Peek or Pop. */
  lemma FirstProxyBecomesRoot(c: Callback, next: Callback)
    requires !c.VisitDocumentStart? && !Closes(c)
    ensures Step(Initial, c).Ok?
    ensures RootView(Step(Initial, c).value) == Some(Created(c))
    ensures Opens(c) ==> Step(Initial, c).value.traversingParents == [Frame(Created(c), false)]
    ensures IsLeafCallback(c) && !next.VisitDocumentStart? ==>
      Step(Step(Initial, c).value, next) == Err(EmptyStack)
  {
  }

  lemma {:induction false} CloseIgnoresDetachedTop(frames: seq<Frame>, top: Frame, i: nat)
    requires i < |frames| && !top.attached
    ensures Close((frames + [top])[i..]) == Close(frames[i..])
    decreases |frames| - i
  {
    var extended := (frames + [top])[i..];
    if i == |frames| - 1 {
      assert extended == [frames[i], top];
      assert extended[1..] == [top];
    } else {
      assert extended[1..] == (frames + [top])[i + 1..];
      assert frames[i..][1..] == frames[i + 1..];
      CloseIgnoresDetachedTop(frames, top, i + 1);
    }
  }

  /** A document start makes the new, empty document `Root` and pushes it without adding it
      to any open proxy: what every open frame holds is unchanged. */
  lemma DocumentStartDetaches(s: CaptureState)
    ensures Step(s, VisitDocumentStart).Ok?
    ensures var t := Step(s, VisitDocumentStart).value;
      RootView(t) == Some(Document([]))
      && t.traversingParents == s.traversingParents + [Frame(Document([]), false)]
      && forall i | 0 <= i < |s.traversingParents| ::
           Close(t.traversingParents[i..]) == Close(s.traversingParents[i..])
  {
    var t := Step(s, VisitDocumentStart).value;
    var n := |s.traversingParents|;
    assert t.traversingParents[n..] == [Frame(Document([]), false)];
    forall i | 0 <= i < n
      ensures Close(t.traversingParents[i..]) == Close(s.traversingParents[i..])
    {
      CloseIgnoresDetachedTop(s.traversingParents, Frame(Document([]), false), i);
    }
  }

  /** A composite start below an existing `Root` adds the new proxy to the proxy on top of
      the stack (the open top now shows it as its last child) and pushes it. */
  lemma CompositeStartAddsToTop(s: CaptureState, c: Callback)
    requires Opens(c) && !c.VisitDocumentStart? && !s.root.Unset? && s.traversingParents != []
    requires Accepts(KindOf(Top(s).node), KindOf(Created(c)))
    ensures Step(s, c).Ok?
    ensures var t := Step(s, c).value;
      var n := |s.traversingParents|;
      t.traversingParents == s.traversingParents + [Frame(Created(c), true)]
      && t.root == s.root
      && Close(t.traversingParents[n - 1..]) == Attached(Top(s).node, Created(c))
  {
    var t := Step(s, c).value;
    var n := |s.traversingParents|;
    assert t.traversingParents[n - 1..] == [Top(s), Frame(Created(c), true)];
    assert t.traversingParents[n - 1..][1..] == [Frame(Created(c), true)];
  }

  /** A composite start whose proxy the top of the stack does not take throws, as `Add` does. */
  lemma CompositeStartRefused(s: CaptureState, c: Callback)
    requires Opens(c) && !c.VisitDocumentStart? && !s.root.Unset? && s.traversingParents != []
    requires !Accepts(KindOf(Top(s).node), KindOf(Created(c)))
    ensures Step(s, c) == Err(Refused(Add(Top(s).node, Created(c)).error))
  {
  }

  /** A leaf below an existing `Root` is added at the end of the top proxy's children (or to
      the slot a section keeps for it) and the stack keeps its depth and its lower frames. */
  lemma LeafAddsToTop(s: CaptureState, c: Callback)
    requires IsLeafCallback(c) && !s.root.Unset? && s.traversingParents != []
    requires HasChildren(Top(s).node) && Accepts(KindOf(Top(s).node), KindOf(Created(c)))
    ensures Step(s, c).Ok?
    ensures var t := Step(s, c).value;
      var n := |s.traversingParents|;
      t.traversingParents[..n - 1] == s.traversingParents[..n - 1]
      && t.root == s.root
      && Top(t).node.children == Top(s).node.children + [Created(c)]
  {
  }

  /** Frames each added to the frame below by their start callback, which the frame below
      took: what lies above an open `Root` unless a document start intervened. */
  predicate Chained(frames: seq<Frame>)
  {
    forall j | 1 <= j < |frames| ::
      frames[j].attached && Accepts(KindOf(frames[j - 1].node), KindOf(frames[j].node))
  }

  lemma CloseKind(frames: seq<Frame>)
    requires frames != []
    ensures KindOf(Close(frames)) == KindOf(frames[0].node)
  {
    if |frames| > 1 && frames[1].attached {
      AttachedKeepsKind(frames[0].node, Close(frames[1..]));
    }
  }

  /** Whatever the top of a chain of open frames holds, the bottom frame's view holds too. */
  lemma {:induction false} CloseHolds(frames: seq<Frame>, x: Proxy)
    requires frames != [] && Chained(frames) && Holds(frames[|frames| - 1].node, x)
    ensures Holds(Close(frames), x)
    decreases |frames|
  {
    if |frames| > 1 {
      var rest := frames[1..];
      forall j | 1 <= j < |rest|
        ensures rest[j].attached && Accepts(KindOf(rest[j - 1].node), KindOf(rest[j].node))
      {
        assert rest[j] == frames[j + 1] && rest[j - 1] == frames[j];
      }
      assert rest[|rest| - 1] == frames[|frames| - 1];
      CloseHolds(rest, x);
      CloseKind(rest);
      assert frames[1].attached && Accepts(KindOf(frames[0].node), KindOf(frames[1].node));
      HoldsAttached(frames[0].node, Close(rest), x);
    }
  }

  /** A proxy created below an open `Root`, through a chain of open proxies that each took the
      one above it, is held by the tree `Root` shows, leaf or composite alike. */
  lemma AddedShowsInRoot(s: CaptureState, c: Callback)
    requires (Opens(c) || IsLeafCallback(c)) && !c.VisitDocumentStart?
    requires s.root.OpenAt? && s.root.index < |s.traversingParents|
    requires Chained(s.traversingParents[s.root.index..])
    requires Step(s, c).Ok?
    ensures RootView(Step(s, c).value).Some?
    ensures Holds(RootView(Step(s, c).value).value, Created(c))
  {
    if Opens(c) {
      CompositeShowsInRoot(s, c);
    } else {
      LeafShowsInRoot(s, c);
    }
  }

  lemma CompositeShowsInRoot(s: CaptureState, c: Callback)
    requires Opens(c) && !c.VisitDocumentStart?
    requires s.root.OpenAt? && s.root.index < |s.traversingParents|
    requires Chained(s.traversingParents[s.root.index..])
    requires Step(s, c).Ok?
    ensures RootView(Step(s, c).value).Some?
    ensures Holds(RootView(Step(s, c).value).value, Created(c))
  {
    var i, n, p := s.root.index, |s.traversingParents|, Created(c);
    var t := Step(s, c).value;
    assert Step(s, c) == PushChild(s, p);
    assert Add(Top(s).node, p).Ok?;
    assert t.traversingParents == s.traversingParents + [Frame(p, true)] && t.root == s.root;
    var old_, frames := s.traversingParents[i..], t.traversingParents[i..];
    assert frames == old_ + [Frame(p, true)];
    forall j | 1 <= j < |frames|
      ensures frames[j].attached && Accepts(KindOf(frames[j - 1].node), KindOf(frames[j].node))
    {
      if j < |old_| {
        assert frames[j] == old_[j] && frames[j - 1] == old_[j - 1];
      } else {
        assert frames[j - 1] == old_[|old_| - 1] == Top(s);
      }
    }
    CloseHolds(frames, p);
  }

  lemma LeafShowsInRoot(s: CaptureState, c: Callback)
    requires IsLeafCallback(c)
    requires s.root.OpenAt? && s.root.index < |s.traversingParents|
    requires Chained(s.traversingParents[s.root.index..])
    requires Step(s, c).Ok?
    ensures RootView(Step(s, c).value).Some?
    ensures Holds(RootView(Step(s, c).value).value, Created(c))
  {
    var i, n, leaf := s.root.index, |s.traversingParents|, Created(c);
    var t := Step(s, c).value;
    assert Step(s, c) == AddLeaf(s, leaf);
    assert Add(Top(s).node, leaf).Ok?;
    var top := Frame(Attached(Top(s).node, leaf), Top(s).attached);
    assert t.traversingParents == s.traversingParents[..n - 1] + [top] && t.root == s.root;
    AttachedKeepsKind(Top(s).node, leaf);
    var old_, frames := s.traversingParents[i..], t.traversingParents[i..];
    assert |frames| == |old_| && frames[|frames| - 1] == top;
    forall j | 1 <= j < |frames|
      ensures frames[j].attached && Accepts(KindOf(frames[j - 1].node), KindOf(frames[j].node))
    {
      assert frames[j - 1] == old_[j - 1];
      if j < |old_| - 1 {
        assert frames[j] == old_[j];
      } else {
        assert old_[j] == Top(s);
      }
    }
    HoldsAttached(Top(s).node, leaf, leaf);
    CloseHolds(frames, leaf);
  }

  /** The Aspose callback that produces a given proxy callback: the inverse of the capture,
      so that `Accept` can be fed back into it. */
  function HeaderTypeFor(typeLabel: string): HeaderFooterType
  {
    if typeLabel == "First" then HeaderFirst else if typeLabel == "Even" then HeaderEven else HeaderPrimary
  }

  function FooterTypeFor(typeLabel: string): HeaderFooterType
  {
    if typeLabel == "First" then FooterFirst else if typeLabel == "Even" then FooterEven else FooterPrimary
  }

  /** The start callback that creates a composite. */
  function StartCallback(p: Proxy): Callback
  {
    match p
    case Document(_) => VisitDocumentStart
    case Section(format, _, _, _) => VisitSectionStart(format.orientation, format.paperSize)
    case Body(_) => VisitBodyStart
    case Header(headerType, _, _) => VisitHeaderFooterStart(HeaderTypeFor(headerType))
    case Footer(footerType, _, _) => VisitHeaderFooterStart(FooterTypeFor(footerType))
    case Paragraph(_, _) => VisitParagraphStart
    case Table(_) => VisitTableStart
    case Row(_) => VisitRowStart
    case Cell(_) => VisitCellStart
    case ContentControl(controlType, tag, _) => VisitStructuredDocumentTagStart(controlType, tag)
    case Shape(name, _, _) => VisitShapeStart(name)
    case GroupShape(name, _) => VisitGroupShapeStart(name)
    case _ => VisitFieldStart
  }

  /** The end callback that closes a composite. */
  function EndCallback(p: Proxy): Callback
  {
    match p
    case Document(_) => VisitDocumentEnd
    case Section(_, _, _, _) => VisitSectionEnd
    case Body(_) => VisitBodyEnd
    case Header(_, _, _) => VisitHeaderFooterEnd(HeaderPrimary)
    case Footer(_, _, _) => VisitHeaderFooterEnd(FooterPrimary)
    case Paragraph(_, _) => VisitParagraphEnd
    case Table(_) => VisitTableEnd
    case Row(_) => VisitRowEnd
    case Cell(_) => VisitCellEnd
    case ContentControl(_, _, _) => VisitStructuredDocumentTagEnd
    case Shape(_, _, _) => VisitShapeEnd
    case GroupShape(_, _) => VisitGroupShapeEnd
    case _ => VisitFieldEnd
  }

  /** The callback that creates a leaf. */
  function LeafCallback(p: Proxy): Callback
  {
    match p
    case Run(text, _) => VisitRun(text)
    case BookmarkStart(name) => VisitBookmarkStart(name)
    case BookmarkEnd(name) => VisitBookmarkEnd(name)
    case DrawingMl(name, _) => VisitDrawingMl(name)
    case FieldStart => VisitFieldStart
    case FieldSeparator => VisitFieldSeparator
    case FieldEnd => VisitFieldEnd
    case _ => VisitDocumentStart
  }

  function Echo(v: Visit): Callback
  {
    match v
    case Enter(p) => StartCallback(p)
    case Exit(p) => EndCallback(p)
    case Leaf(p) => LeafCallback(p)
  }

  function Echoes(vs: seq<Visit>): (r: seq<Callback>)
    ensures |r| == |vs|
  {
    if vs == [] then [] else [Echo(vs[0])] + Echoes(vs[1..])
  }

  lemma {:induction false} EchoesAppend(a: seq<Visit>, b: seq<Visit>)
    ensures Echoes(a + b) == Echoes(a) + Echoes(b)
  {
    if a == [] {
      assert a + b == b;
    } else {
      Sequences.ConcatTail(a, b);
      EchoesAppend(a[1..], b);
    }
  }

  /** The trees the capture can build: every section has a Body and no headers or footers
      (`Accept` does not visit those), documents appear only at the top, every child is one
      its parent's `Add` takes, and every attribute is one the factory can produce. */
  predicate Replayable(p: Proxy)
  {
    FactoryMade(p)
    && if p.Section? then
      p.body.Some? && p.body.value.Body? && p.headers == [] && p.footers == [] && Replayable(p.body.value)
    else if HasChildren(p) then
      forall c | c in p.children :: !c.Document? && Accepts(KindOf(p), KindOf(c)) && Replayable(c)
    else true
  }

  /** The proxy's own attributes are ones a callback can give it: fresh formats, no image,
      a header or footer label from the table, not linked to the previous section. */
  predicate FactoryMade(p: Proxy)
  {
    (p.Paragraph? ==> p.paragraphFormat == FreshParagraphFormat)
    && (p.Shape? ==> p.image.None?)
    && (p.Header? ==> IsLabel(p.headerType) && !p.isLinkedToPrevious)
    && (p.Footer? ==> IsLabel(p.footerType) && !p.isLinkedToPrevious)
    && (p.Run? ==> p.runFormat == FreshRunFormat)
    && (p.DrawingMl? ==> p.image.None?)
  }

  lemma {:induction false} ReplayableIsVisitable(p: Proxy)
    requires Replayable(p)
    ensures Visitable(p)
  {
    if p.Section? {
      ReplayableIsVisitable(p.body.value);
    } else if HasChildren(p) {
      forall c | c in p.children ensures Visitable(c) {
        ReplayableIsVisitable(c);
      }
    }
  }

  /** Echo turns a composite's start back into the Aspose callback that creates exactly its
      empty proxy; only a document comes from a document start. */
  lemma EchoOpens(p: Proxy)
    requires FactoryMade(p) && IsComposite(KindOf(p))
    ensures Opens(Echo(Enter(p))) && Created(Echo(Enter(p))) == Emptied(p)
    ensures Echo(Enter(p)).VisitDocumentStart? <==> p.Document?
  {
    if p.Document? || p.Body? || p.Table? || p.Row? || p.Cell? {
      EchoOpensPlain(p);
    } else if p.Header? || p.Footer? {
      EchoOpensHeaderFooter(p);
    } else {
      EchoOpensWithAttributes(p);
    }
  }

  lemma EchoOpensPlain(p: Proxy)
    requires p.Document? || p.Body? || p.Table? || p.Row? || p.Cell?
    ensures Opens(Echo(Enter(p))) && Created(Echo(Enter(p))) == Emptied(p)
    ensures Echo(Enter(p)).VisitDocumentStart? <==> p.Document?
  {
  }

  lemma EchoOpensHeaderFooter(p: Proxy)
    requires FactoryMade(p) && (p.Header? || p.Footer?)
    ensures Opens(Echo(Enter(p))) && Created(Echo(Enter(p))) == Emptied(p)
    ensures !Echo(Enter(p)).VisitDocumentStart?
  {
  }

  lemma EchoOpensWithAttributes(p: Proxy)
    requires FactoryMade(p)
    requires p.Section? || p.Paragraph? || p.ContentControl? || p.Shape? || p.GroupShape?
    ensures Opens(Echo(Enter(p))) && Created(Echo(Enter(p))) == Emptied(p)
    ensures !Echo(Enter(p)).VisitDocumentStart?
  {
  }

  /** Echo turns a composite's end back into the end callback that expects its class. */
  lemma EchoCloses(p: Proxy)
    requires IsComposite(KindOf(p))
    ensures Closes(Echo(Exit(p))) && ClosedKind(Echo(Exit(p))) == KindOf(p)
  {
  }

  /** Echo turns a leaf's callback back into the Aspose callback that creates exactly it. */
  lemma EchoCreatesLeaf(p: Proxy)
    requires FactoryMade(p) && !IsComposite(KindOf(p))
    ensures IsLeafCallback(Echo(Leaf(p))) && Created(Echo(Leaf(p))) == p
  {
  }

  /** A composite filled with the children `Accept` visits, in order, is the composite itself. */
  lemma Refill(p: Proxy)
    requires Replayable(p) && IsComposite(KindOf(p))
    ensures Visitable(p) && AttachAll(Emptied(p), Visited(p)) == p
  {
    ReplayableIsVisitable(p);
    if HasChildren(p) {
      var e := Emptied(p);
      WithChildrenFacts(p, [], p.children);
      AttachAllAppends(e, p.children);
      assert e.children + p.children == p.children;
      assert WithChildren(p, p.children) == p;
    } else {
      assert AttachAll(Emptied(p), [p.body.value]) == Attached(Emptied(p), p.body.value);
    }
  }

  /** The state with the top frame's proxy replaced. */
  function WithTop(s: CaptureState, node: Proxy): CaptureState
    requires s.traversingParents != []
  {
    var n := |s.traversingParents|;
    CaptureState(s.traversingParents[..n - 1] + [Frame(node, Top(s).attached)], s.root)
  }

  /** Below an existing `Root`, with a composite on top that takes the proxy, feeding back
      the proxy's `Accept` adds exactly that proxy to the top and changes nothing else. */
  predicate Ready(s: CaptureState)
  {
    s.traversingParents != [] && !s.root.Unset?
    && (s.root.OpenAt? ==> s.root.index < |s.traversingParents|)
  }

  /** The state with one more frame, added to the frame below. */
  function Pushed(s: CaptureState, node: Proxy): CaptureState
  {
    CaptureState(s.traversingParents + [Frame(node, true)], s.root)
  }

  lemma PushedWithTop(s: CaptureState, a: Proxy, b: Proxy)
    ensures Pushed(s, a).traversingParents != [] && WithTop(Pushed(s, a), b) == Pushed(s, b)
  {
    var n := |s.traversingParents|;
    assert Pushed(s, a).traversingParents[..n] == s.traversingParents;
  }

  lemma FeedEnclosed(s: CaptureState, open: Callback, middle: seq<Callback>, close: Callback,
                     s1: CaptureState, s2: CaptureState, s3: CaptureState)
    requires Step(s, open) == Ok(s1) && Feed(s1, middle) == Ok(s2) && Step(s2, close) == Ok(s3)
    ensures Feed(s, [open] + middle + [close]) == Ok(s3)
  {
    FeedAppend(s, [open] + middle, [close]);
    FeedAppend(s, [open], middle);
    assert Feed(s, [open]) == Ok(s1);
    assert Feed(s2, [close]) == Ok(s3);
  }

  lemma EchoesEnclosed(p: Proxy, middle: seq<Visit>)
    ensures Echoes([Enter(p)] + middle + [Exit(p)]) == [Echo(Enter(p))] + Echoes(middle) + [Echo(Exit(p))]
  {
    EchoesAppend([Enter(p)] + middle, [Exit(p)]);
    EchoesAppend([Enter(p)], middle);
    assert Echoes([Enter(p)]) == [Echo(Enter(p))];
    assert Echoes([Exit(p)]) == [Echo(Exit(p))];
  }

  /** Below an existing `Root`, a composite's start callback pushes its empty proxy. */
  lemma ReplayStart(s: CaptureState, p: Proxy)
    requires Ready(s)
    requires FactoryMade(p) && IsComposite(KindOf(p)) && !p.Document?
    requires Accepts(KindOf(Top(s).node), KindOf(p))
    ensures Step(s, Echo(Enter(p))) == Ok(Pushed(s, Emptied(p)))
  {
    EchoOpens(p);
  }

  /** Its end callback pops it again and adds it, complete, to the proxy below. */
  lemma ReplayEnd(s: CaptureState, p: Proxy)
    requires Ready(s) && IsComposite(KindOf(p))
    ensures Step(Pushed(s, p), Echo(Exit(p))) == Ok(WithTop(s, Attached(Top(s).node, p)))
  {
    EchoCloses(p);
    var n := |s.traversingParents|;
    var t := Pushed(s, p);
    assert Top(t) == Frame(p, true);
    assert t.traversingParents[..n] == s.traversingParents;
  }

  lemma {:induction false} ReplayOne(s: CaptureState, p: Proxy)
    requires Ready(s)
    requires Replayable(p) && !p.Document? && Accepts(KindOf(Top(s).node), KindOf(p))
    ensures Visitable(p) &&
      Feed(s, Echoes(Accept(p))) == Ok(WithTop(s, Attached(Top(s).node, p)))
    decreases p, 1
  {
    ReplayableIsVisitable(p);
    AcceptShape(p);
    if IsComposite(KindOf(p)) {
      var s1 := Pushed(s, Emptied(p));
      ReplayStart(s, p);
      PushedWithTop(s, Emptied(p), Emptied(p));
      assert Top(s1).node == Emptied(p);
      var kids := Visited(p);
      if p.Section? {
        var body := p.body.value;
        ReplayOne(s1, body);
        assert kids[1..] == [];
        assert AcceptAll(kids) == Accept(body) + AcceptAll([]);
        assert AcceptAll(kids) == Accept(body);
        assert AttachAll(Emptied(p), kids) == AttachAll(Attached(Emptied(p), body), []);
        assert AttachAll(Emptied(p), kids) == Attached(Emptied(p), body);
        assert Feed(s1, Echoes(AcceptAll(kids))) == Ok(WithTop(s1, AttachAll(Emptied(p), kids)));
      } else {
        forall c | c in kids
          ensures Replayable(c) && !c.Document? && Accepts(KindOf(Top(s1).node), KindOf(c))
        {
        }
        ReplayMany(s1, p.children);
        assert Feed(s1, Echoes(AcceptAll(kids))) == Ok(WithTop(s1, AttachAll(Emptied(p), kids)));
      }
      Refill(p);
      PushedWithTop(s, Emptied(p), p);
      assert Feed(s1, Echoes(AcceptAll(kids))) == Ok(Pushed(s, p));
      ReplayEnd(s, p);
      EchoesEnclosed(p, AcceptAll(kids));
      FeedEnclosed(s, Echo(Enter(p)), Echoes(AcceptAll(kids)), Echo(Exit(p)),
                   s1, Pushed(s, p), WithTop(s, Attached(Top(s).node, p)));
    } else {
      EchoCreatesLeaf(p);
      assert Echoes(Accept(p)) == [Echo(Leaf(p))];
      assert Step(s, Echo(Leaf(p))) == Ok(WithTop(s, Attached(Top(s).node, p)));
    }
  }

  lemma {:induction false} ReplayMany(s: CaptureState, ps: seq<Proxy>)
    requires Ready(s)
    requires forall c | c in ps :: Replayable(c) && !c.Document? && Accepts(KindOf(Top(s).node), KindOf(c))
    ensures (forall c | c in ps :: Visitable(c)) &&
      Feed(s, Echoes(AcceptAll(ps))) == Ok(WithTop(s, AttachAll(Top(s).node, ps)))
    decreases ps, 0
  {
    forall c | c in ps ensures Visitable(c) {
      ReplayableIsVisitable(c);
    }
    if ps == [] {
      assert WithTop(s, Top(s).node) == s;
    } else {
      var first := ps[0];
      var s1 := WithTop(s, Attached(Top(s).node, first));
      ReplayOne(s, first);
      AttachedKeepsKind(Top(s).node, first);
      assert Top(s1).node == Attached(Top(s).node, first);
      forall c | c in ps[1..]
        ensures Replayable(c) && !c.Document? && Accepts(KindOf(Top(s1).node), KindOf(c))
      {
        assert c in ps;
      }
      ReplayMany(s1, ps[1..]);
      EchoesAppend(Accept(first), AcceptAll(ps[1..]));
      FeedAppend(s, Echoes(Accept(first)), Echoes(AcceptAll(ps[1..])));
      assert WithTop(s1, AttachAll(Top(s1).node, ps[1..])) == WithTop(s, AttachAll(Top(s).node, ps));
    }
  }

  /** The round trip: feeding the callbacks of a proxy tree's `Accept` back into a fresh
      ProxyDocumentVisitor raises no exception, empties the stack and leaves `Root` equal to
      the tree. Children therefore come back in the order they were visited. */
  lemma RoundTrip(p: Proxy)
    requires Replayable(p)
    ensures Visitable(p) &&
      Feed(Initial, Echoes(Accept(p))) == Ok(CaptureState([], Closed(p)))
  {
    ReplayableIsVisitable(p);
    AcceptShape(p);
    if IsComposite(KindOf(p)) {
      var s1 := CaptureState([Frame(Emptied(p), false)], OpenAt(0));
      var s2 := CaptureState([Frame(p, false)], OpenAt(0));
      var middle := AcceptAll(Visited(p));
      RoundTripOpens(p);
      RoundTripFills(p);
      RoundTripCloses(p);
      EchoesAppend([Enter(p)] + middle, [Exit(p)]);
      EchoesAppend([Enter(p)], middle);
      assert Echoes([Enter(p)]) == [Echo(Enter(p))];
      FeedAppend(Initial, [Echo(Enter(p))] + Echoes(middle), Echoes([Exit(p)]));
      FeedAppend(Initial, [Echo(Enter(p))], Echoes(middle));
    } else {
      EchoCreatesLeaf(p);
      assert Echoes(Accept(p)) == [Echo(Leaf(p))];
    }
  }

  lemma RoundTripOpens(p: Proxy)
    requires Replayable(p) && IsComposite(KindOf(p))
    ensures Feed(Initial, [Echo(Enter(p))]) == Ok(CaptureState([Frame(Emptied(p), false)], OpenAt(0)))
  {
    EchoOpens(p);
    assert Step(Initial, Echo(Enter(p))) == Ok(CaptureState([Frame(Emptied(p), false)], OpenAt(0)));
  }

  lemma RoundTripFills(p: Proxy)
    requires Replayable(p) && Visitable(p) && IsComposite(KindOf(p))
    ensures Feed(CaptureState([Frame(Emptied(p), false)], OpenAt(0)), Echoes(AcceptAll(Visited(p))))
      == Ok(CaptureState([Frame(p, false)], OpenAt(0)))
  {
    var s1 := CaptureState([Frame(Emptied(p), false)], OpenAt(0));
    var kids := Visited(p);
    forall c | c in kids
      ensures Replayable(c) && !c.Document? && Accepts(KindOf(Top(s1).node), KindOf(c))
    {
    }
    ReplayMany(s1, kids);
    Refill(p);
    assert WithTop(s1, p) == CaptureState([Frame(p, false)], OpenAt(0));
  }

  lemma RoundTripCloses(p: Proxy)
    requires Replayable(p) && IsComposite(KindOf(p))
    ensures Feed(CaptureState([Frame(p, false)], OpenAt(0)), Echoes([Exit(p)])) == Ok(CaptureState([], Closed(p)))
  {
    EchoCloses(p);
    assert Echoes([Exit(p)]) == [Echo(Exit(p))];
    assert Step(CaptureState([Frame(p, false)], OpenAt(0)), Echo(Exit(p))) == Ok(CaptureState([], Closed(p)));
  }

  /** A section's headers and footers do not survive the round trip: `Accept` never visits
      them, so the captured section has the same format and Body and none of them. */
  lemma HeadersAndFootersAreLost(section: Proxy)
    requires section.Section?
    requires Replayable(Section(section.format, section.body, [], []))
    ensures Visitable(section)
    ensures Feed(Initial, Echoes(Accept(section)))
      == Ok(CaptureState([], Closed(Section(section.format, section.body, [], []))))
  {
    var stripped := Section(section.format, section.body, [], []);
    RoundTrip(stripped);
    ReplayableIsVisitable(stripped);
    var inner := Accept(section.body.value);
    assert Accept(section) == [Enter(section)] + inner + [Exit(section)];
    assert Accept(stripped) == [Enter(stripped)] + inner + [Exit(stripped)];
    EchoesAppend([Enter(section)] + inner, [Exit(section)]);
    EchoesAppend([Enter(section)], inner);
    EchoesAppend([Enter(stripped)] + inner, [Exit(stripped)]);
    EchoesAppend([Enter(stripped)], inner);
    assert Echoes(Accept(section)) == Echoes(Accept(stripped));
  }

  /** ProxyDocumentVisitor itself: the stack of open composites and `Root`. Each callback
      does what `Step` describes; after an exception the traversal stops, so the state it
      leaves behind is not described. */
  class ProxyDocumentVisitor {
    var traversingParents: seq<Frame>
    var root: RootSlot

    constructor ()
      ensures traversingParents == [] && root == Unset
    {
      traversingParents := [];
      root := Unset;
    }

    function State(): CaptureState
      reads this
    {
      CaptureState(traversingParents, root)
    }

    /** What `Root` refers to now: null exactly until the first proxy is created, and once
        the proxy it refers to has been popped, that finished proxy. */
    function Root(): (r: Option<Proxy>)
      reads this
      ensures Valid(State()) ==> (r.None? <==> root.Unset?)
      ensures root.Closed? ==> r == Some(root.tree)
      ensures r == RootView(State())
    {
      RootView(State())
    }

    method Visit(c: Callback) returns (outcome: Result<(), CaptureError>)
      modifies this
      ensures outcome.Ok? <==> Step(old(State()), c).Ok?
      ensures outcome.Ok? ==> State() == Step(old(State()), c).value
      ensures outcome.Err? ==> outcome.error == Step(old(State()), c).error
    {
      if c.VisitDocumentStart? {
        var documentProxy := CreateDocument();
        root := OpenAt(|traversingParents|);
        traversingParents := traversingParents + [Frame(documentProxy, false)];
        outcome := Ok(());
      } else if Opens(c) {
        outcome := AddToHierarchy(Created(c));
      } else if IsLeafCallback(c) {
        outcome := AddLeafToHierarchy(Created(c));
      } else {
        outcome := PopAndEnsureLegalTreeTraversal(ClosedKind(c));
      }
    }

    method AddToHierarchy(proxy: Proxy) returns (outcome: Result<(), CaptureError>)
      modifies this
      ensures outcome.Ok? <==> PushChild(old(State()), proxy).Ok?
      ensures outcome.Ok? ==> State() == PushChild(old(State()), proxy).value
      ensures outcome.Err? ==> outcome.error == PushChild(old(State()), proxy).error
    {
      var attached := false;
      if !root.Unset? {
        if traversingParents == [] {
          return Err(EmptyStack);
        }
        var parent := traversingParents[|traversingParents| - 1].node;
        var added := Add(parent, proxy);
        if added.Err? {
          return Err(Refused(added.error));
        }
        attached := true;
      } else {
        root := OpenAt(|traversingParents|);
      }
      traversingParents := traversingParents + [Frame(proxy, attached)];
      outcome := Ok(());
    }

    method AddLeafToHierarchy(leaf: Proxy) returns (outcome: Result<(), CaptureError>)
      modifies this
      ensures outcome.Ok? <==> AddLeaf(old(State()), leaf).Ok?
      ensures outcome.Ok? ==> State() == AddLeaf(old(State()), leaf).value
      ensures outcome.Err? ==> outcome.error == AddLeaf(old(State()), leaf).error
    {
      if root.Unset? {
        root := Closed(leaf);
        return Ok(());
      }
      if traversingParents == [] {
        return Err(EmptyStack);
      }
      var n := |traversingParents|;
      var top := traversingParents[n - 1];
      var added := Add(top.node, leaf);
      if added.Err? {
        return Err(Refused(added.error));
      }
      traversingParents := traversingParents[..n - 1] + [Frame(added.value, top.attached)];
      outcome := Ok(());
    }

    method PopAndEnsureLegalTreeTraversal(expected: Kind) returns (outcome: Result<(), CaptureError>)
      modifies this
      ensures outcome.Ok? <==> PopChecked(old(State()), expected).Ok?
      ensures outcome.Ok? ==> State() == PopChecked(old(State()), expected).value
      ensures outcome.Err? ==> outcome.error == PopChecked(old(State()), expected).error
    {
      if traversingParents == [] {
        return Err(EmptyStack);
      }
      var n := |traversingParents|;
      var popped := traversingParents[n - 1];
      traversingParents := traversingParents[..n - 1];
      if KindOf(popped.node) != expected {
        return Err(IllegalTraversal(expected, KindOf(popped.node)));
      }
      if popped.attached && n >= 2 {
        var parent := traversingParents[n - 2];
        traversingParents := traversingParents[..n - 2] + [Frame(Attached(parent.node, popped.node), parent.attached)];
      }
      if root == OpenAt(n - 1) {
        root := Closed(popped.node);
      }
      outcome := Ok(());
    }
  }
}
