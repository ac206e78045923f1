/**
 * The accessibility snapshot records: a screen's flattened UI skeleton, the optional
 * interaction on it, and their JSON form. Kotlin `Float` values are exact reals here.
 */
module ScreenSnapshots {
  import opened Wrappers
  import J = Json
  import Text

  datatype NodeType = Container | TextNode | Image | Button | Input | List | Scroll | Web | Video | Unknown
  datatype TextCategory = Empty | SingleWord | ShortPhrase | Sentence | Paragraph | LongText
  datatype SizeClass = Tiny | Small | Medium | Large | Fullscreen
  datatype ScreenRegion =
    | TopLeft | TopCenter | TopRight
    | MiddleLeft | Center | MiddleRight
    | BottomLeft | BottomCenter | BottomRight
  datatype InteractionType = Tap | LongPress | ScrollGesture | TextInput | Swipe

  datatype SkeletonNode = SkeletonNode(
    id: int,
    parentId: Option<int>,
    nodeType: NodeType,
    depth: int,
    region: ScreenRegion,
    sizeClass: SizeClass,
    relativeX: real,
    relativeY: real,
    relativeWidth: real,
    relativeHeight: real,
    clickable: bool,
    scrollable: bool,
    editable: bool,
    focusable: bool,
    hasText: bool,
    textCategory: Option<TextCategory>,
    hasImage: bool,
    role: Option<string>)

  datatype TreeSkeleton = TreeSkeleton(signature: string, nodes: seq<SkeletonNode>)

  datatype InteractionEvent = InteractionEvent(interactionType: InteractionType, targetNodeId: int, tapX: real, tapY: real)

  datatype ScreenSnapshot = ScreenSnapshot(
    timestamp: int,
    appPackage: string,
    framework: string,
    skeleton: TreeSkeleton,
    interaction: Option<InteractionEvent>)

  // The enum names, as `Enum.name` writes them, and `valueOf`, which reads them back.

  function NodeTypeName(t: NodeType): string
  {
    match t
    case Container => "CONTAINER"
    case TextNode => "TEXT"
    case Image => "IMAGE"
    case Button => "BUTTON"
    case Input => "INPUT"
    case List => "LIST"
    case Scroll => "SCROLL"
    case Web => "WEB"
    case Video => "VIDEO"
    case Unknown => "UNKNOWN"
  }

  function NodeTypeOf(name: string): (r: Option<NodeType>)
    ensures r.Some? ==> NodeTypeName(r.value) == name
  {
    if name == "CONTAINER" then Some(Container)
    else if name == "TEXT" then Some(TextNode)
    else if name == "IMAGE" then Some(Image)
    else if name == "BUTTON" then Some(Button)
    else if name == "INPUT" then Some(Input)
    else if name == "LIST" then Some(List)
    else if name == "SCROLL" then Some(Scroll)
    else if name == "WEB" then Some(Web)
    else if name == "VIDEO" then Some(Video)
    else if name == "UNKNOWN" then Some(Unknown)
    else None
  }

  function TextCategoryName(c: TextCategory): string
  {
    match c
    case Empty => "EMPTY"
    case SingleWord => "SINGLE_WORD"
    case ShortPhrase => "SHORT_PHRASE"
    case Sentence => "SENTENCE"
    case Paragraph => "PARAGRAPH"
    case LongText => "LONG_TEXT"
  }

  function TextCategoryOf(name: string): (r: Option<TextCategory>)
    ensures r.Some? ==> TextCategoryName(r.value) == name
  {
    if name == "EMPTY" then Some(Empty)
    else if name == "SINGLE_WORD" then Some(SingleWord)
    else if name == "SHORT_PHRASE" then Some(ShortPhrase)
    else if name == "SENTENCE" then Some(Sentence)
    else if name == "PARAGRAPH" then Some(Paragraph)
    else if name == "LONG_TEXT" then Some(LongText)
    else None
  }

  function SizeClassName(c: SizeClass): string
  {
    match c
    case Tiny => "TINY"
    case Small => "SMALL"
    case Medium => "MEDIUM"
    case Large => "LARGE"
    case Fullscreen => "FULLSCREEN"
  }

  function SizeClassOf(name: string): (r: Option<SizeClass>)
    ensures r.Some? ==> SizeClassName(r.value) == name
  {
    if name == "TINY" then Some(Tiny)
    else if name == "SMALL" then Some(Small)
    else if name == "MEDIUM" then Some(Medium)
    else if name == "LARGE" then Some(Large)
    else if name == "FULLSCREEN" then Some(Fullscreen)
    else None
  }

  function RegionName(r: ScreenRegion): string
  {
    match r
    case TopLeft => "TOP_LEFT"
    case TopCenter => "TOP_CENTER"
    case TopRight => "TOP_RIGHT"
    case MiddleLeft => "MIDDLE_LEFT"
    case Center => "CENTER"
    case MiddleRight => "MIDDLE_RIGHT"
    case BottomLeft => "BOTTOM_LEFT"
    case BottomCenter => "BOTTOM_CENTER"
    case BottomRight => "BOTTOM_RIGHT"
  }

  function RegionOf(name: string): (r: Option<ScreenRegion>)
    ensures r.Some? ==> RegionName(r.value) == name
  {
    if name == "TOP_LEFT" then Some(TopLeft)
    else if name == "TOP_CENTER" then Some(TopCenter)
    else if name == "TOP_RIGHT" then Some(TopRight)
    else if name == "MIDDLE_LEFT" then Some(MiddleLeft)
    else if name == "CENTER" then Some(Center)
    else if name == "MIDDLE_RIGHT" then Some(MiddleRight)
    else if name == "BOTTOM_LEFT" then Some(BottomLeft)
    else if name == "BOTTOM_CENTER" then Some(BottomCenter)
    else if name == "BOTTOM_RIGHT" then Some(BottomRight)
    else None
  }

  function InteractionTypeName(t: InteractionType): string
  {
    match t
    case Tap => "TAP"
    case LongPress => "LONG_PRESS"
    case ScrollGesture => "SCROLL"
    case TextInput => "TEXT_INPUT"
    case Swipe => "SWIPE"
  }

  function InteractionTypeOf(name: string): (r: Option<InteractionType>)
    ensures r.Some? ==> InteractionTypeName(r.value) == name
  {
    if name == "TAP" then Some(Tap)
    else if name == "LONG_PRESS" then Some(LongPress)
    else if name == "SCROLL" then Some(ScrollGesture)
    else if name == "TEXT_INPUT" then Some(TextInput)
    else if name == "SWIPE" then Some(Swipe)
    else None
  }

  lemma NodeTypeNamesRoundTrip(t: NodeType)
    ensures NodeTypeOf(NodeTypeName(t)) == Some(t)
  {
  }

  lemma TextCategoryNamesRoundTrip(c: TextCategory)
    ensures TextCategoryOf(TextCategoryName(c)) == Some(c)
  {
  }

  lemma SizeClassNamesRoundTrip(c: SizeClass)
    ensures SizeClassOf(SizeClassName(c)) == Some(c)
  {
  }

  lemma RegionNamesRoundTrip(r: ScreenRegion)
    ensures RegionOf(RegionName(r)) == Some(r)
  {
  }

  lemma InteractionTypeNamesRoundTrip(t: InteractionType)
    ensures InteractionTypeOf(InteractionTypeName(t)) == Some(t)
  {
  }

  /** `SkeletonNode.toJson`: a missing parent is written as -1; a missing category or role is left out. */
  function NodeToJson(n: SkeletonNode): J.Json
  {
    var base := NodeBase(n);
    var withCategory := if n.textCategory.Some? then base[J.TextCategory := J.JString(TextCategoryName(n.textCategory.value))] else base;
    var withRole := if n.role.Some? then withCategory[J.Role := J.JString(n.role.value)] else withCategory;
    J.JObject(withRole)
  }

  /** The keys every node writes. */
  function NodeBase(n: SkeletonNode): map<J.Key, J.Json>
  {
    map[
      J.Id := J.JNum(n.id),
      J.ParentId := J.JNum(n.parentId.GetOrElse(-1)),
      J.Type := J.JString(NodeTypeName(n.nodeType)),
      J.Depth := J.JNum(n.depth),
      J.Region := J.JString(RegionName(n.region)),
      J.SizeClass := J.JString(SizeClassName(n.sizeClass)),
      J.RelativeX := J.JReal(n.relativeX),
      J.RelativeY := J.JReal(n.relativeY),
      J.RelativeWidth := J.JReal(n.relativeWidth),
      J.RelativeHeight := J.JReal(n.relativeHeight),
      J.Clickable := J.JBool(n.clickable),
      J.Scrollable := J.JBool(n.scrollable),
      J.Editable := J.JBool(n.editable),
      J.Focusable := J.JBool(n.focusable),
      J.HasText := J.JBool(n.hasText),
      J.HasImage := J.JBool(n.hasImage)]
  }

  /** The optional keys do not overwrite a key every node writes. */
  lemma BaseKeyKept(n: SkeletonNode, k: J.Key)
    requires k in NodeBase(n)
    ensures NodeToJson(n).JObject? && k in NodeToJson(n).fields && NodeToJson(n).fields[k] == NodeBase(n)[k]
  {
    assert k != J.TextCategory && k != J.Role;
  }

  /** The enum-valued fields of a node, read back; `None` where `valueOf` throws. */
  datatype NodeEnums = NodeEnums(nodeType: NodeType, region: ScreenRegion, sizeClass: SizeClass)

  function NodeEnumsFromJson(o: J.Json): Option<NodeEnums>
  {
    var t := J.GetString(o, J.Type);
    var r := J.GetString(o, J.Region);
    var s := J.GetString(o, J.SizeClass);
    if t.None? || r.None? || s.None? then None
    else
      var nt := NodeTypeOf(t.value);
      var nr := RegionOf(r.value);
      var ns := SizeClassOf(s.value);
      if nt.None? || nr.None? || ns.None? then None
      else Some(NodeEnums(nt.value, nr.value, ns.value))
  }

  /** The optional fields of a node, read back: `-1` is no parent; an absent category or role is none. */
  datatype NodeOptionals = NodeOptionals(parentId: Option<int>, textCategory: Option<TextCategory>, role: Option<string>)

  function NodeOptionalsFromJson(o: J.Json): Option<NodeOptionals>
  {
    var p := J.GetInt(o, J.ParentId);
    var category :=
      if J.Has(o, J.TextCategory) then
        var name := J.GetString(o, J.TextCategory);
        if name.Some? then TextCategoryOf(name.value) else None
      else None;
    var role := J.GetString(o, J.Role);
    if p.None? then None
    else if J.Has(o, J.TextCategory) && category.None? then None
    else if J.Has(o, J.Role) && role.None? then None
    else Some(NodeOptionals(if p.value == -1 then None else Some(p.value), category, role))
  }

  /** `SkeletonNode.fromJson`; `None` where one of its getters or `valueOf` throws. */
  function NodeFromJson(o: J.Json): Option<SkeletonNode>
  {
    var id := J.GetInt(o, J.Id);
    var depth := J.GetInt(o, J.Depth);
    var enums := NodeEnumsFromJson(o);
    var optionals := NodeOptionalsFromJson(o);
    var x := J.GetDouble(o, J.RelativeX);
    var y := J.GetDouble(o, J.RelativeY);
    var w := J.GetDouble(o, J.RelativeWidth);
    var h := J.GetDouble(o, J.RelativeHeight);
    var clickable := J.GetBoolean(o, J.Clickable);
    var scrollable := J.GetBoolean(o, J.Scrollable);
    var editable := J.GetBoolean(o, J.Editable);
    var focusable := J.GetBoolean(o, J.Focusable);
    var hasText := J.GetBoolean(o, J.HasText);
    var hasImage := J.GetBoolean(o, J.HasImage);
    if id.None? || depth.None? || enums.None? || optionals.None? || x.None? || y.None? || w.None? || h.None?
       || clickable.None? || scrollable.None? || editable.None? || focusable.None? || hasText.None? || hasImage.None?
    then None
    else
      Some(SkeletonNode(id.value, optionals.value.parentId, enums.value.nodeType, depth.value, enums.value.region,
        enums.value.sizeClass, x.value, y.value, w.value, h.value, clickable.value, scrollable.value, editable.value,
        focusable.value, hasText.value, optionals.value.textCategory, hasImage.value, optionals.value.role))
  }

  /** The Kotlin `Int` fields fit in an `Int`, and no parent id is the -1 that stands for none. */
  predicate WellFormedNode(n: SkeletonNode)
  {
    && Text.IntMin <= n.id <= Text.IntMax
    && Text.IntMin <= n.depth <= Text.IntMax
    && (n.parentId.Some? ==> Text.IntMin <= n.parentId.value <= Text.IntMax && n.parentId.value != -1)
  }

  // What each getter reads from a node's object, a few keys at a time.

  lemma NodeIdsRead(n: SkeletonNode)
    requires WellFormedNode(n)
    ensures J.GetInt(NodeToJson(n), J.Id) == Some(n.id)
    ensures J.GetInt(NodeToJson(n), J.Depth) == Some(n.depth)
  {
    BaseKeyKept(n, J.Id);
    BaseKeyKept(n, J.Depth);
  }

  lemma NodeParentRead(n: SkeletonNode)
    requires WellFormedNode(n)
    ensures J.GetInt(NodeToJson(n), J.ParentId) == Some(n.parentId.GetOrElse(-1))
  {
    BaseKeyKept(n, J.ParentId);
  }

  lemma NodeNamesRead(n: SkeletonNode)
    ensures J.GetString(NodeToJson(n), J.Type) == Some(NodeTypeName(n.nodeType))
    ensures J.GetString(NodeToJson(n), J.Region) == Some(RegionName(n.region))
    ensures J.GetString(NodeToJson(n), J.SizeClass) == Some(SizeClassName(n.sizeClass))
  {
    BaseKeyKept(n, J.Type);
    BaseKeyKept(n, J.Region);
    BaseKeyKept(n, J.SizeClass);
  }

  lemma NodePlacementRead(n: SkeletonNode)
    ensures J.GetDouble(NodeToJson(n), J.RelativeX) == Some(n.relativeX)
    ensures J.GetDouble(NodeToJson(n), J.RelativeY) == Some(n.relativeY)
    ensures J.GetDouble(NodeToJson(n), J.RelativeWidth) == Some(n.relativeWidth)
    ensures J.GetDouble(NodeToJson(n), J.RelativeHeight) == Some(n.relativeHeight)
  {
    BaseKeyKept(n, J.RelativeX);
    BaseKeyKept(n, J.RelativeY);
    BaseKeyKept(n, J.RelativeWidth);
    BaseKeyKept(n, J.RelativeHeight);
  }

  lemma NodeFlagsRead(n: SkeletonNode)
    ensures J.GetBoolean(NodeToJson(n), J.Clickable) == Some(n.clickable)
    ensures J.GetBoolean(NodeToJson(n), J.Scrollable) == Some(n.scrollable)
    ensures J.GetBoolean(NodeToJson(n), J.Editable) == Some(n.editable)
  {
    BaseKeyKept(n, J.Clickable);
    BaseKeyKept(n, J.Scrollable);
    BaseKeyKept(n, J.Editable);
  }

  lemma NodeMoreFlagsRead(n: SkeletonNode)
    ensures J.GetBoolean(NodeToJson(n), J.Focusable) == Some(n.focusable)
    ensures J.GetBoolean(NodeToJson(n), J.HasText) == Some(n.hasText)
    ensures J.GetBoolean(NodeToJson(n), J.HasImage) == Some(n.hasImage)
  {
    BaseKeyKept(n, J.Focusable);
    BaseKeyKept(n, J.HasText);
    BaseKeyKept(n, J.HasImage);
  }

  lemma NodeOptionalKeysRead(n: SkeletonNode)
    ensures J.Has(NodeToJson(n), J.TextCategory) <==> n.textCategory.Some?
    ensures n.textCategory.Some? ==> J.GetString(NodeToJson(n), J.TextCategory) == Some(TextCategoryName(n.textCategory.value))
    ensures J.Has(NodeToJson(n), J.Role) <==> n.role.Some?
    ensures J.GetString(NodeToJson(n), J.Role) == n.role
  {
  }

  lemma NodeEnumsRoundTrip(n: SkeletonNode)
    ensures NodeEnumsFromJson(NodeToJson(n)) == Some(NodeEnums(n.nodeType, n.region, n.sizeClass))
  {
    NodeNamesRead(n);
    NodeTypeNamesRoundTrip(n.nodeType);
    RegionNamesRoundTrip(n.region);
    SizeClassNamesRoundTrip(n.sizeClass);
  }

  lemma NodeOptionalsRoundTrip(n: SkeletonNode)
    requires WellFormedNode(n)
    ensures NodeOptionalsFromJson(NodeToJson(n)) == Some(NodeOptionals(n.parentId, n.textCategory, n.role))
  {
    NodeParentRead(n);
    NodeOptionalKeysRead(n);
    if n.textCategory.Some? {
      TextCategoryNamesRoundTrip(n.textCategory.value);
    }
  }

  /**
   * A node survives the trip through JSON: the missing parent comes back from -1, and a missing
   * category or role from its absent key.
   */
  lemma NodeRoundTrip(n: SkeletonNode)
    requires WellFormedNode(n)
    ensures NodeFromJson(NodeToJson(n)) == Some(n)
  {
    NodeIdsRead(n);
    NodePlacementRead(n);
    NodeFlagsRead(n);
    NodeMoreFlagsRead(n);
    NodeEnumsRoundTrip(n);
    NodeOptionalsRoundTrip(n);
  }

  /** A parent id of -1 is read back as no parent: the one node that does not survive the trip. */
  lemma ParentMinusOneIsLost(n: SkeletonNode)
    requires WellFormedNode(n.(parentId := None))
    requires n.parentId == Some(-1)
    ensures NodeFromJson(NodeToJson(n)) == Some(n.(parentId := None))
  {
    assert NodeToJson(n) == NodeToJson(n.(parentId := None));
    NodeRoundTrip(n.(parentId := None));
  }

  /** `TreeSkeleton.toJson` */
  function SkeletonToJson(t: TreeSkeleton): J.Json
  {
    J.JObject(map[J.Signature := J.JString(t.signature), J.Nodes := J.JArray(J.ArrayOf(t.nodes, NodeToJson))])
  }

  /** `TreeSkeleton.fromJson` */
  function SkeletonFromJson(o: J.Json): Option<TreeSkeleton>
  {
    var items := J.GetArray(o, J.Nodes);
    var signature := J.GetString(o, J.Signature);
    if items.None? || signature.None? then None
    else
      var nodes := J.ReadArray(items.value, NodeFromJson);
      if nodes.None? then None else Some(TreeSkeleton(signature.value, nodes.value))
  }

  /** `InteractionEvent.toJson` */
  function InteractionToJson(e: InteractionEvent): J.Json
  {
    J.JObject(map[
      J.Type := J.JString(InteractionTypeName(e.interactionType)),
      J.TargetNodeId := J.JNum(e.targetNodeId),
      J.TapX := J.JReal(e.tapX),
      J.TapY := J.JReal(e.tapY)])
  }

  /** `InteractionEvent.fromJson` */
  function InteractionFromJson(o: J.Json): Option<InteractionEvent>
  {
    var name := J.GetString(o, J.Type);
    var target := J.GetInt(o, J.TargetNodeId);
    var x := J.GetDouble(o, J.TapX);
    var y := J.GetDouble(o, J.TapY);
    if name.None? || target.None? || x.None? || y.None? then None
    else
      var t := InteractionTypeOf(name.value);
      if t.None? then None else Some(InteractionEvent(t.value, target.value, x.value, y.value))
  }

  /** `ScreenSnapshot.toJson`: a missing interaction is left out. */
  function SnapshotToJson(s: ScreenSnapshot): J.Json
  {
    var base := map[
      J.Timestamp := J.JNum(s.timestamp),
      J.AppPackage := J.JString(s.appPackage),
      J.Framework := J.JString(s.framework),
      J.Skeleton := SkeletonToJson(s.skeleton)];
    J.JObject(if s.interaction.Some? then base[J.Interaction := InteractionToJson(s.interaction.value)] else base)
  }

  /** `ScreenSnapshot.fromJson` */
  function SnapshotFromJson(o: J.Json): Option<ScreenSnapshot>
  {
    var timestamp := J.GetLong(o, J.Timestamp);
    var appPackage := J.GetString(o, J.AppPackage);
    var framework := J.GetString(o, J.Framework);
    var skeletonJson := J.GetObject(o, J.Skeleton);
    var skeleton := if skeletonJson.Some? then SkeletonFromJson(skeletonJson.value) else None;
    var interactionJson := J.GetObject(o, J.Interaction);
    var interaction := if interactionJson.Some? then InteractionFromJson(interactionJson.value) else None;
    if timestamp.None? || appPackage.None? || framework.None? || skeleton.None? then None
    else if J.Has(o, J.Interaction) && interaction.None? then None
    else Some(ScreenSnapshot(timestamp.value, appPackage.value, framework.value, skeleton.value, interaction))
  }

  predicate WellFormedSnapshot(s: ScreenSnapshot)
  {
    && (forall i :: 0 <= i < |s.skeleton.nodes| ==> WellFormedNode(s.skeleton.nodes[i]))
    && (s.interaction.Some? ==> Text.IntMin <= s.interaction.value.targetNodeId <= Text.IntMax)
  }

  /** The node array reads back as the same nodes, in the same order. */
  lemma NodesRoundTrip(nodes: seq<SkeletonNode>)
    requires forall i :: 0 <= i < |nodes| ==> WellFormedNode(nodes[i])
    ensures J.ReadArray(J.ArrayOf(nodes, NodeToJson), NodeFromJson) == Some(nodes)
  {
    forall i | 0 <= i < |nodes|
      ensures NodeFromJson(NodeToJson(nodes[i])) == Some(nodes[i])
    {
      NodeRoundTrip(nodes[i]);
    }
    J.ReadArrayOf(nodes, NodeToJson, NodeFromJson);
  }

  lemma SkeletonRoundTrip(t: TreeSkeleton)
    requires forall i :: 0 <= i < |t.nodes| ==> WellFormedNode(t.nodes[i])
    ensures SkeletonFromJson(SkeletonToJson(t)) == Some(t)
  {
    var o := SkeletonToJson(t);
    var items := J.ArrayOf(t.nodes, NodeToJson);
    assert J.GetArray(o, J.Nodes) == Some(items);
    assert J.GetString(o, J.Signature) == Some(t.signature);
    assert J.ReadArray(items, NodeFromJson) == Some(t.nodes) by {
      NodesRoundTrip(t.nodes);
    }
  }

  lemma InteractionRoundTrip(e: InteractionEvent)
    requires Text.IntMin <= e.targetNodeId <= Text.IntMax
    ensures InteractionFromJson(InteractionToJson(e)) == Some(e)
  {
    InteractionTypeNamesRoundTrip(e.interactionType);
  }

  lemma SnapshotFieldsRead(s: ScreenSnapshot)
    ensures J.GetLong(SnapshotToJson(s), J.Timestamp) == Some(s.timestamp)
    ensures J.GetString(SnapshotToJson(s), J.AppPackage) == Some(s.appPackage)
    ensures J.GetString(SnapshotToJson(s), J.Framework) == Some(s.framework)
    ensures J.GetObject(SnapshotToJson(s), J.Skeleton) == Some(SkeletonToJson(s.skeleton))
    ensures J.Has(SnapshotToJson(s), J.Interaction) <==> s.interaction.Some?
    ensures s.interaction.Some? ==> J.GetObject(SnapshotToJson(s), J.Interaction) == Some(InteractionToJson(s.interaction.value))
  {
  }

  /**
   * `fromJson(toJson(s)) == s`: the snapshot, its skeleton with the nodes in order, and its
   * interaction (or the absence of one) come back unchanged.
   */
  lemma SnapshotRoundTrip(s: ScreenSnapshot)
    requires WellFormedSnapshot(s)
    ensures SnapshotFromJson(SnapshotToJson(s)) == Some(s)
  {
    SnapshotFieldsRead(s);
    SkeletonRoundTrip(s.skeleton);
    if s.interaction.Some? {
      InteractionRoundTrip(s.interaction.value);
    }
  }
}
