/**
 * The accessibility consumer that records the structure of the screens a participant sees:
 * on a window change it flattens the visible node tree into a content-free skeleton, and
 * queues a snapshot when the skeleton's signature differs from the last one; on a tap,
 * long press, scroll or text input it finds the skeleton node under the touched view and
 * queues an interaction snapshot.
 *
 * The window's node tree and the event's source view are given as values. The clock
 * reading is the `now` parameter, and the SHA-256 digest of the signature is the `hash`
 * parameter of the setup.
 */
module UiTree {
  import opened Wrappers
  import opened Text
  import opened ScreenSnapshots
  import opened UiClassifiers
  import SB = SnapshotBatching

  const ContentChangeDebounceMs: int := 500
  /** `Float.MAX_VALUE`, the area the search for the touched node starts from. */
  const MaxFloat: real := 340282346638528859811704183484516925440.0

  /** The role metadata of a node: React Native's `accessibilityRole` and Android's role description. */
  datatype RoleExtras = RoleExtras(accessibilityRole: Option<string>, roleDescription: Option<string>)

  /** `AccessibilityNodeInfo`: a child that can no longer be retrieved is `None`. */
  datatype UiNode = UiNode(
    className: Option<string>,
    packageName: Option<string>,
    bounds: Rect,
    visibleToUser: bool,
    clickable: bool,
    scrollable: bool,
    editable: bool,
    focusable: bool,
    text: Option<string>,
    contentDescription: Option<string>,
    extras: Option<RoleExtras>,
    children: seq<Option<UiNode>>)

  /** The display's size in pixels, and whether the Android version is at least 9 (API 28). */
  datatype Device = Device(screenWidth: int, screenHeight: int, sdkAtLeastP: bool)

  predicate ValidDevice(device: Device)
  {
    device.screenWidth > 0 && device.screenHeight > 0
  }

  /** `extractRole`: React Native's role first, then, from Android 9 on, the role description. */
  function ExtractRole(n: UiNode, sdkAtLeastP: bool): (r: Option<string>)
    ensures n.extras.None? ==> r.None?
    ensures n.extras.Some? && n.extras.value.accessibilityRole.Some? ==> r == n.extras.value.accessibilityRole
    ensures r.Some? && r != n.extras.value.accessibilityRole ==> sdkAtLeastP && r == n.extras.value.roleDescription
  {
    if n.extras.None? then None
    else if n.extras.value.accessibilityRole.Some? then n.extras.value.accessibilityRole
    else if sdkAtLeastP && n.extras.value.roleDescription.Some? then n.extras.value.roleDescription
    else None
  }

  /** A node the skeleton keeps: visible, with a non-zero width and height. */
  predicate Shown(n: UiNode)
  {
    n.visibleToUser && n.bounds.Width() != 0 && n.bounds.Height() != 0
  }

  /** The skeleton node of a shown node, without its text or any other content. */
  function MakeNode(device: Device, n: UiNode, id: int, parentId: Option<int>, depth: int): (r: SkeletonNode)
    requires ValidDevice(device)
    ensures r.id == id && r.parentId == parentId && r.depth == depth
  {
    SkeletonNode(
      id, parentId, ClassifyNodeType(n.className, n.clickable, |n.children|), depth,
      CalculateRegion(n.bounds, device.screenWidth, device.screenHeight),
      CalculateSizeClass(n.bounds, device.screenWidth, device.screenHeight),
      Relative(n.bounds.left, device.screenWidth), Relative(n.bounds.top, device.screenHeight),
      Relative(n.bounds.Width(), device.screenWidth), Relative(n.bounds.Height(), device.screenHeight),
      n.clickable, n.scrollable, n.editable, n.focusable,
      n.text.Some? || n.contentDescription.Some?,
      CategorizeText(n.text, n.contentDescription),
      IsImageNode(n.className),
      ExtractRole(n, device.sdkAtLeastP))
  }

  /**
   * `buildSkeleton` appending to `nodes`: a node that is not shown adds nothing, nor do its
   * descendants; a shown node is added with the list's size as its id, then its children in
   * order, one level deeper and with it as their parent.
   */
  function SkeletonOf(device: Device, n: UiNode, parentId: Option<int>, depth: int, nodes: seq<SkeletonNode>): seq<SkeletonNode>
    requires ValidDevice(device)
    decreases n
  {
    if !Shown(n) then nodes
    else
      var id := |nodes|;
      ChildrenSkeleton(device, n.children, Some(id), depth + 1, nodes + [MakeNode(device, n, id, parentId, depth)])
  }

  /** The loop over a node's children. */
  function ChildrenSkeleton(device: Device, cs: seq<Option<UiNode>>, parentId: Option<int>, depth: int, nodes: seq<SkeletonNode>)
    : seq<SkeletonNode>
    requires ValidDevice(device)
    decreases cs
  {
    if |cs| == 0 then nodes
    else
      var before := ChildrenSkeleton(device, cs[..|cs| - 1], parentId, depth, nodes);
      var last := cs[|cs| - 1];
      assert last in cs;
      if last.Some? then assert last.value < last; SkeletonOf(device, last.value, parentId, depth, before) else before
  }

  /** One step of the loop over the children. */
  function ChildStep(device: Device, c: Option<UiNode>, parentId: Option<int>, depth: int, nodes: seq<SkeletonNode>): seq<SkeletonNode>
    requires ValidDevice(device)
  {
    if c.Some? then SkeletonOf(device, c.value, parentId, depth, nodes) else nodes
  }

  lemma ChildrenPrefix(device: Device, cs: seq<Option<UiNode>>, i: int, parentId: Option<int>, depth: int, nodes: seq<SkeletonNode>)
    requires ValidDevice(device) && 0 <= i < |cs|
    ensures ChildrenSkeleton(device, cs[..i + 1], parentId, depth, nodes)
            == ChildStep(device, cs[i], parentId, depth, ChildrenSkeleton(device, cs[..i], parentId, depth, nodes))
  {
    assert cs[..i + 1][..i] == cs[..i];
  }

  /** `buildSkeleton` */
  method BuildSkeleton(device: Device, node: UiNode, parentId: Option<int>, depth: int, nodes: seq<SkeletonNode>)
    returns (result: seq<SkeletonNode>)
    requires ValidDevice(device)
    ensures result == SkeletonOf(device, node, parentId, depth, nodes)
    decreases node
  {
    var nodeId := |nodes|;
    if !(node.visibleToUser && node.bounds.Width() != 0 && node.bounds.Height() != 0) {
      return nodes;
    }
    result := nodes + [MakeNode(device, node, nodeId, parentId, depth)];
    for i := 0 to |node.children|
      invariant result == ChildrenSkeleton(device, node.children[..i], Some(nodeId), depth + 1, nodes + [MakeNode(device, node, nodeId, parentId, depth)])
    {
      ChildrenPrefix(device, node.children, i, Some(nodeId), depth + 1, nodes + [MakeNode(device, node, nodeId, parentId, depth)]);
      var child := node.children[i];
      if child.Some? {
        assert child in node.children;
        result := BuildSkeleton(device, child.value, Some(nodeId), depth + 1, result);
      }
    }
    assert node.children[..|node.children|] == node.children;
  }

  /** Node `i`'s parent is an earlier node one level up; only the first node has none, at depth 0. */
  predicate ParentBefore(nodes: seq<SkeletonNode>, i: int)
    requires 0 <= i < |nodes|
  {
    match nodes[i].parentId
    case None => i == 0 && nodes[i].depth == 0
    case Some(p) => 0 <= p < i && nodes[i].depth == nodes[p].depth + 1
  }

  /** A tree flattened in pre-order: each node's id is its position, and its parent comes before it. */
  predicate Flattened(nodes: seq<SkeletonNode>)
  {
    forall i :: 0 <= i < |nodes| ==> nodes[i].id == i && ParentBefore(nodes, i)
  }

  /** Where new nodes hang: no parent on an empty list at depth 0, or an existing node one level up. */
  predicate Anchored(nodes: seq<SkeletonNode>, parentId: Option<int>, depth: int)
  {
    match parentId
    case None => |nodes| == 0 && depth == 0
    case Some(p) => 0 <= p < |nodes| && depth == nodes[p].depth + 1
  }

  predicate Extends(nodes: seq<SkeletonNode>, longer: seq<SkeletonNode>)
  {
    |nodes| <= |longer| && longer[..|nodes|] == nodes
  }

  /** A node added with the next id, under an anchored parent, keeps the list flattened; its children hang under it. */
  lemma AppendFlattened(nodes: seq<SkeletonNode>, node: SkeletonNode, parentId: Option<int>, depth: int)
    requires Flattened(nodes) && Anchored(nodes, parentId, depth)
    requires node.id == |nodes| && node.parentId == parentId && node.depth == depth
    ensures Flattened(nodes + [node]) && Anchored(nodes + [node], Some(|nodes|), depth + 1)
    ensures Extends(nodes, nodes + [node])
  {
    var added := nodes + [node];
    forall i | 0 <= i < |added|
      ensures added[i].id == i && ParentBefore(added, i)
    {
      if i < |nodes| {
        assert ParentBefore(nodes, i);
      }
    }
  }

  lemma ExtendsAnchored(nodes: seq<SkeletonNode>, longer: seq<SkeletonNode>, parentId: Option<int>, depth: int)
    requires Extends(nodes, longer) && Anchored(nodes, parentId, depth) && parentId.Some?
    ensures Anchored(longer, parentId, depth)
  {
    assert longer[parentId.value] == longer[..|nodes|][parentId.value];
  }

  lemma ExtendsTransitive(a: seq<SkeletonNode>, b: seq<SkeletonNode>, c: seq<SkeletonNode>)
    requires Extends(a, b) && Extends(b, c)
    ensures Extends(a, c)
  {
    assert c[..|a|] == c[..|b|][..|a|];
  }

  /** Adding a node's skeleton to a flattened list keeps it flattened, and keeps what was there. */
  lemma {:induction false} SkeletonFlattened(device: Device, n: UiNode, parentId: Option<int>, depth: int, nodes: seq<SkeletonNode>)
    requires ValidDevice(device) && Flattened(nodes) && Anchored(nodes, parentId, depth)
    ensures Flattened(SkeletonOf(device, n, parentId, depth, nodes))
    ensures Extends(nodes, SkeletonOf(device, n, parentId, depth, nodes))
    decreases n
  {
    if Shown(n) {
      var id := |nodes|;
      var node := MakeNode(device, n, id, parentId, depth);
      AppendFlattened(nodes, node, parentId, depth);
      ChildrenFlattened(device, n.children, Some(id), depth + 1, nodes + [node]);
      ExtendsTransitive(nodes, nodes + [node], SkeletonOf(device, n, parentId, depth, nodes));
    } else {
      assert SkeletonOf(device, n, parentId, depth, nodes)[..|nodes|] == nodes;
    }
  }

  lemma {:induction false} ChildrenFlattened(device: Device, cs: seq<Option<UiNode>>, parentId: Option<int>, depth: int, nodes: seq<SkeletonNode>)
    requires ValidDevice(device) && Flattened(nodes) && Anchored(nodes, parentId, depth) && parentId.Some?
    ensures Flattened(ChildrenSkeleton(device, cs, parentId, depth, nodes))
    ensures Extends(nodes, ChildrenSkeleton(device, cs, parentId, depth, nodes))
    decreases cs
  {
    if |cs| > 0 {
      var before := ChildrenSkeleton(device, cs[..|cs| - 1], parentId, depth, nodes);
      ChildrenFlattened(device, cs[..|cs| - 1], parentId, depth, nodes);
      var last := cs[|cs| - 1];
      if last.Some? {
        assert last in cs;
        assert last.value < last;
        ExtendsAnchored(nodes, before, parentId, depth);
        SkeletonFlattened(device, last.value, parentId, depth, before);
        ExtendsTransitive(nodes, before, ChildrenSkeleton(device, cs, parentId, depth, nodes));
      }
    } else {
      assert ChildrenSkeleton(device, cs, parentId, depth, nodes)[..|nodes|] == nodes;
    }
  }

  /**
   * The skeleton of a window is a tree flattened in pre-order with the root first; it is
   * empty exactly when the root itself is not shown, whatever its descendants.
   */
  lemma WindowSkeletonShape(device: Device, root: UiNode)
    requires ValidDevice(device)
    ensures var nodes := SkeletonOf(device, root, None, 0, []);
            && Flattened(nodes)
            && (|nodes| == 0 <==> !Shown(root))
            && (Shown(root) ==> nodes[0] == MakeNode(device, root, 0, None, 0))
  {
    SkeletonFlattened(device, root, None, 0, []);
    if Shown(root) {
      var node := MakeNode(device, root, 0, None, 0);
      AppendFlattened([], node, None, 0);
      assert [] + [node] == [node];
      ChildrenFlattened(device, root.children, Some(0), 1, [node]);
    }
  }

  // ---------------------------------------------------------------- signature

  function BoolText(b: bool): string
  {
    if b then "true" else "false"
  }

  /** The part of a node the signature covers: its kind, depth, region, size class and clickability. */
  function NodeShape(n: SkeletonNode): string
  {
    NodeTypeName(n.nodeType) + ":" + IntToString(n.depth) + ":" + RegionName(n.region) + ":"
      + SizeClassName(n.sizeClass) + ":" + BoolText(n.clickable)
  }

  /** `generateTreeSignature`: the digest of the nodes' shapes joined by `|`. */
  function Signature(hash: string -> string, nodes: seq<SkeletonNode>): string
  {
    hash(Join(seq(|nodes|, i requires 0 <= i < |nodes| => NodeShape(nodes[i])), '|'))
  }

  /** Two nodes alike in everything the signature covers. */
  predicate SameShape(a: SkeletonNode, b: SkeletonNode)
  {
    a.nodeType == b.nodeType && a.depth == b.depth && a.region == b.region
      && a.sizeClass == b.sizeClass && a.clickable == b.clickable
  }

  /**
   * The signature sees the structure only: screens whose nodes differ in text, role, position
   * within a region or any other content have the same signature.
   */
  lemma SignatureIgnoresContent(hash: string -> string, a: seq<SkeletonNode>, b: seq<SkeletonNode>)
    requires |a| == |b| && forall i :: 0 <= i < |a| ==> SameShape(a[i], b[i])
    ensures Signature(hash, a) == Signature(hash, b)
  {
    var sa := seq(|a|, i requires 0 <= i < |a| => NodeShape(a[i]));
    var sb := seq(|b|, i requires 0 <= i < |b| => NodeShape(b[i]));
    assert sa == sb by {
      forall i | 0 <= i < |a|
        ensures sa[i] == sb[i]
      {
        assert SameShape(a[i], b[i]);
      }
    }
  }

  // ---------------------------------------------------------------- framework

  /**
   * `searchForClassName`: whether a node within `maxDepth` levels, the node itself being the
   * first, has a class name containing `className`.
   */
  function SearchForClassName(n: UiNode, className: string, maxDepth: int): bool
    decreases n
  {
    if maxDepth <= 0 then false
    else if n.className.Some? && Contains(n.className.value, className) then true
    else SearchChildren(n.children, className, maxDepth - 1)
  }

  /** The loop over the children, which stops at the first one that finds the name. */
  function SearchChildren(cs: seq<Option<UiNode>>, className: string, maxDepth: int): bool
    decreases cs
  {
    if |cs| == 0 then false
    else
      assert cs[0] in cs;
      (cs[0].Some? && (assert cs[0].value < cs[0]; SearchForClassName(cs[0].value, className, maxDepth)))
        || SearchChildren(cs[1..], className, maxDepth)
  }

  /** Looking one level deeper never loses a match. */
  lemma {:induction false} SearchDeeper(n: UiNode, className: string, maxDepth: int)
    requires SearchForClassName(n, className, maxDepth)
    ensures SearchForClassName(n, className, maxDepth + 1)
    decreases n
  {
    if !(n.className.Some? && Contains(n.className.value, className)) {
      ChildrenSearchDeeper(n.children, className, maxDepth - 1);
    }
  }

  lemma {:induction false} ChildrenSearchDeeper(cs: seq<Option<UiNode>>, className: string, maxDepth: int)
    requires SearchChildren(cs, className, maxDepth)
    ensures SearchChildren(cs, className, maxDepth + 1)
    decreases cs
  {
    assert cs[0] in cs;
    if cs[0].Some? && SearchForClassName(cs[0].value, className, maxDepth) {
      assert cs[0].value < cs[0];
      SearchDeeper(cs[0].value, className, maxDepth);
    } else {
      ChildrenSearchDeeper(cs[1..], className, maxDepth);
    }
  }

  /** With one level only the node itself is looked at. */
  lemma SearchOneLevel(n: UiNode, className: string)
    ensures SearchForClassName(n, className, 1) <==> n.className.Some? && Contains(n.className.value, className)
  {
    if |n.children| > 0 {
      ChildrenFindNothingAtDepthZero(n.children, className);
    }
  }

  lemma {:induction false} ChildrenFindNothingAtDepthZero(cs: seq<Option<UiNode>>, className: string)
    ensures !SearchChildren(cs, className, 0)
    decreases cs
  {
    if |cs| > 0 {
      ChildrenFindNothingAtDepthZero(cs[1..], className);
    }
  }

  /** The markers of each framework, as searched for in the first three levels of the window. */
  predicate HasReactNative(root: UiNode)
  {
    SearchForClassName(root, "com.facebook.react.ReactRootView", 3)
  }

  predicate HasFlutter(root: UiNode)
  {
    SearchForClassName(root, "io.flutter.embedding.android.FlutterView", 3)
      || SearchForClassName(root, "io.flutter.view.FlutterView", 3)
  }

  predicate HasWebView(root: UiNode)
  {
    SearchForClassName(root, "android.webkit.WebView", 3)
  }

  predicate HasUnity(root: UiNode)
  {
    SearchForClassName(root, "com.unity3d.player.UnityPlayer", 3)
  }

  predicate HasXamarin(root: UiNode)
  {
    SearchForClassName(root, "md5", 3) || SearchForClassName(root, "mono.android", 3)
  }

  /** `detectFramework`: the first framework whose marker is found, else NATIVE. */
  function DetectFramework(root: UiNode): (r: string)
    ensures r == "NATIVE" <==> !HasReactNative(root) && !HasFlutter(root) && !HasWebView(root) && !HasUnity(root) && !HasXamarin(root)
    ensures r == "REACT_NATIVE" <==> HasReactNative(root)
    ensures r == "FLUTTER" ==> HasFlutter(root)
  {
    if HasReactNative(root) then "REACT_NATIVE"
    else if HasFlutter(root) then "FLUTTER"
    else if HasWebView(root) then "WEBVIEW"
    else if HasUnity(root) then "UNITY"
    else if HasXamarin(root) then "XAMARIN"
    else "NATIVE"
  }

  // ---------------------------------------------------------------- the touched node

  /** The node's box, in shares of the screen, holds the point (edges included). */
  predicate HoldsPoint(n: SkeletonNode, x: real, y: real)
  {
    x >= n.relativeX && x <= n.relativeX + n.relativeWidth && y >= n.relativeY && y <= n.relativeY + n.relativeHeight
  }

  function Area(n: SkeletonNode): real
  {
    n.relativeWidth * n.relativeHeight
  }

  /** The area to beat after a prefix of the nodes: the best match's, or `Float.MAX_VALUE`. */
  function SmallestArea(nodes: seq<SkeletonNode>, best: Option<int>): real
    requires best.Some? ==> 0 <= best.value < |nodes|
  {
    if best.Some? then Area(nodes[best.value]) else MaxFloat
  }

  /** The position of the best match the loop of `findNodeIdByBounds` settles on. */
  function BestMatch(nodes: seq<SkeletonNode>, x: real, y: real): (k: Option<int>)
    ensures k.Some? ==> 0 <= k.value < |nodes|
  {
    if |nodes| == 0 then None
    else
      var before := nodes[..|nodes| - 1];
      var best := BestMatch(before, x, y);
      var last := nodes[|nodes| - 1];
      if HoldsPoint(last, x, y) && Area(last) < SmallestArea(before, best) then Some(|nodes| - 1) else best
  }

  /** The id of the node under a point, if any. */
  function NodeIdAt(nodes: seq<SkeletonNode>, x: real, y: real): Option<int>
  {
    var k := BestMatch(nodes, x, y);
    if k.Some? then Some(nodes[k.value].id) else None
  }

  /**
   * The match is the first of the smallest nodes holding the point: it holds the point, no
   * node holding the point is smaller, and every earlier one is larger. There is none exactly
   * when every node holding the point has an area of at least `Float.MAX_VALUE`.
   */
  lemma {:induction false} BestMatchIsFirstSmallest(nodes: seq<SkeletonNode>, x: real, y: real)
    ensures var k := BestMatch(nodes, x, y);
            && (k.None? <==> forall i :: 0 <= i < |nodes| && HoldsPoint(nodes[i], x, y) ==> Area(nodes[i]) >= MaxFloat)
            && (k.Some? ==>
                  && HoldsPoint(nodes[k.value], x, y) && Area(nodes[k.value]) < MaxFloat
                  && (forall i :: 0 <= i < |nodes| && HoldsPoint(nodes[i], x, y) ==> Area(nodes[k.value]) <= Area(nodes[i]))
                  && (forall i :: 0 <= i < k.value && HoldsPoint(nodes[i], x, y) ==> Area(nodes[k.value]) < Area(nodes[i])))
  {
    if |nodes| > 0 {
      var before := nodes[..|nodes| - 1];
      BestMatchIsFirstSmallest(before, x, y);
      assert forall i :: 0 <= i < |before| ==> before[i] == nodes[i];
    }
  }

  /** `findNodeIdByBounds`: the node under the centre of the touched view's bounds. */
  method FindNodeIdByBounds(device: Device, bounds: Rect, skeleton: TreeSkeleton) returns (r: Option<int>)
    requires ValidDevice(device)
    ensures r == NodeIdAt(skeleton.nodes, Relative(bounds.CenterX(), device.screenWidth), Relative(bounds.CenterY(), device.screenHeight))
  {
    var centerX := bounds.CenterX() as real / device.screenWidth as real;
    var centerY := bounds.CenterY() as real / device.screenHeight as real;
    var bestMatch: Option<SkeletonNode> := None;
    var smallestArea := MaxFloat;
    for i := 0 to |skeleton.nodes|
      invariant var k := BestMatch(skeleton.nodes[..i], centerX, centerY);
                && bestMatch == (if k.Some? then Some(skeleton.nodes[k.value]) else None)
                && smallestArea == SmallestArea(skeleton.nodes[..i], k)
    {
      var node := skeleton.nodes[i];
      assert skeleton.nodes[..i + 1][..i] == skeleton.nodes[..i];
      if centerX >= node.relativeX && centerX <= node.relativeX + node.relativeWidth
        && centerY >= node.relativeY && centerY <= node.relativeY + node.relativeHeight
      {
        var area := node.relativeWidth * node.relativeHeight;
        if area < smallestArea {
          smallestArea := area;
          bestMatch := Some(node);
        }
      }
    }
    assert skeleton.nodes[..|skeleton.nodes|] == skeleton.nodes;
    r := if bestMatch.Some? then Some(bestMatch.value.id) else None;
  }

  // ---------------------------------------------------------------- the consumer

  /** The accessibility events the consumer reacts to; every other kind is `OtherEvent`. */
  datatype EventType =
    | WindowStateChanged | WindowContentChanged
    | ViewClicked | ViewLongClicked | ViewScrolled | ViewTextChanged
    | GestureDetectionStart | GestureDetectionEnd | TouchInteractionStart | TouchInteractionEnd
    | OtherEvent

  /** `AccessibilityEvent`: its type and the view it came from, if that can be retrieved. */
  datatype AccessibilityEvent = AccessibilityEvent(eventType: EventType, source: Option<UiNode>)

  /** What the consumer is set up with: the device, the digest, and the batch manager's batch size. */
  datatype Setup = Setup(device: Device, hash: string -> string, batchSize: int)

  /** The consumer's fields, with the state of its batch manager. */
  datatype ConsumerState = ConsumerState(
    lastSignature: Option<string>,
    currentSkeleton: Option<TreeSkeleton>,
    lastContentChangeTime: int,
    batch: SB.ManagerState)

  /** `processSnapshot`: the snapshot goes to the batch manager. */
  function Process(setup: Setup, st: ConsumerState, snapshot: ScreenSnapshot, now: int): ConsumerState
  {
    st.(batch := SB.Add(st.batch, setup.batchSize, snapshot, now))
  }

  /**
   * `captureTreeSkeleton`: nothing without a window, nothing for an empty skeleton, and
   * nothing when the signature is the last one; otherwise a snapshot of the new screen is
   * queued and its skeleton becomes the current one.
   */
  function Capture(setup: Setup, st: ConsumerState, root: Option<UiNode>, now: int): ConsumerState
    requires ValidDevice(setup.device)
  {
    if root.None? then st
    else
      var nodes := SkeletonOf(setup.device, root.value, None, 0, []);
      if |nodes| == 0 then st
      else
        var signature := Signature(setup.hash, nodes);
        if st.lastSignature == Some(signature) then st
        else
          var skeleton := TreeSkeleton(signature, nodes);
          var snapshot := ScreenSnapshot(now, root.value.packageName.GetOrElse("unknown"), DetectFramework(root.value), skeleton, None);
          Process(setup, st.(currentSkeleton := Some(skeleton), lastSignature := Some(signature)), snapshot, now)
  }

  /** `captureTreeSkeletonDebounced`: a change within 500 ms of the last accepted one is dropped. */
  function CaptureDebounced(setup: Setup, st: ConsumerState, root: Option<UiNode>, now: int): ConsumerState
    requires ValidDevice(setup.device)
  {
    if now - st.lastContentChangeTime < ContentChangeDebounceMs then st
    else Capture(setup, st.(lastContentChangeTime := now), root, now)
  }

  /** The interaction snapshot for a touch on the node `nodeId`: it refers to the last screen by signature only. */
  function InteractionSnapshot(st: ConsumerState, source: UiNode, t: InteractionType, nodeId: int, x: real, y: real, now: int): ScreenSnapshot
  {
    ScreenSnapshot(now, source.packageName.GetOrElse("unknown"), "", TreeSkeleton(st.lastSignature.GetOrElse(""), []),
                   Some(InteractionEvent(t, nodeId, x, y)))
  }

  /**
   * `recordInteraction`: with a source view and a current skeleton, the node under the
   * centre of the view is looked up; when there is one, an interaction snapshot is queued.
   */
  function Record(setup: Setup, st: ConsumerState, source: Option<UiNode>, t: InteractionType, now: int): ConsumerState
    requires ValidDevice(setup.device)
  {
    if source.None? || st.currentSkeleton.None? then st
    else
      var x := Relative(source.value.bounds.CenterX(), setup.device.screenWidth);
      var y := Relative(source.value.bounds.CenterY(), setup.device.screenHeight);
      var nodeId := NodeIdAt(st.currentSkeleton.value.nodes, x, y);
      if nodeId.None? then st
      else Process(setup, st, InteractionSnapshot(st, source.value, t, nodeId.value, x, y, now), now)
  }

  /** `consumeEvent`, given the active window's root node when the event arrives. */
  function Consume(setup: Setup, st: ConsumerState, event: AccessibilityEvent, root: Option<UiNode>, now: int): ConsumerState
    requires ValidDevice(setup.device)
  {
    match event.eventType
    case WindowStateChanged => Capture(setup, st, root, now)
    case WindowContentChanged => CaptureDebounced(setup, st, root, now)
    case ViewClicked => Record(setup, st, event.source, Tap, now)
    case ViewLongClicked => Record(setup, st, event.source, LongPress, now)
    case ViewScrolled => Record(setup, st, event.source, ScrollGesture, now)
    case ViewTextChanged =>
      if event.source.Some? && event.source.value.editable then Record(setup, st, event.source, TextInput, now) else st
    case GestureDetectionStart => Record(setup, st, event.source, Tap, now)
    case GestureDetectionEnd => Record(setup, st, event.source, Tap, now)
    case TouchInteractionStart => st
    case TouchInteractionEnd => Record(setup, st, event.source, Tap, now)
    case OtherEvent => st
  }

  /**
   * A capture changes something only for a shown window whose signature differs from the last
   * one; the skeleton it keeps is that window's, flattened with the root first, and carries
   * that signature.
   */
  lemma CaptureOnlyOnNewSignature(setup: Setup, st: ConsumerState, root: Option<UiNode>, now: int)
    requires ValidDevice(setup.device)
    ensures var r := Capture(setup, st, root, now);
            r != st ==>
              && root.Some? && Shown(root.value)
              && var nodes := SkeletonOf(setup.device, root.value, None, 0, []);
              && st.lastSignature != Some(Signature(setup.hash, nodes))
              && r.lastSignature == Some(Signature(setup.hash, nodes))
              && r.currentSkeleton == Some(TreeSkeleton(Signature(setup.hash, nodes), nodes))
              && Flattened(nodes)
              && r.lastContentChangeTime == st.lastContentChangeTime
  {
    if root.Some? {
      WindowSkeletonShape(setup.device, root.value);
    }
  }

  /** Capturing the same window again queues nothing: the second capture changes nothing. */
  lemma CaptureTwiceQueuesOnce(setup: Setup, st: ConsumerState, root: Option<UiNode>, t1: int, t2: int)
    requires ValidDevice(setup.device)
    ensures Capture(setup, Capture(setup, st, root, t1), root, t2) == Capture(setup, st, root, t1)
  {
  }

  /** A content change too soon after the last accepted one changes nothing; an accepted one records its time. */
  lemma DebounceDropsEarlyChanges(setup: Setup, st: ConsumerState, root: Option<UiNode>, now: int)
    requires ValidDevice(setup.device)
    ensures now - st.lastContentChangeTime < ContentChangeDebounceMs ==> CaptureDebounced(setup, st, root, now) == st
    ensures now - st.lastContentChangeTime >= ContentChangeDebounceMs ==> CaptureDebounced(setup, st, root, now).lastContentChangeTime == now
  {
  }

  /**
   * An interaction is queued only with a source view and a current skeleton, on the first of
   * the smallest skeleton nodes holding the view's centre; it changes nothing but the batch.
   */
  lemma RecordTargetsSmallestNode(setup: Setup, st: ConsumerState, source: Option<UiNode>, t: InteractionType, now: int)
    requires ValidDevice(setup.device)
    ensures var r := Record(setup, st, source, t, now);
            && r.lastSignature == st.lastSignature && r.currentSkeleton == st.currentSkeleton
            && r.lastContentChangeTime == st.lastContentChangeTime
            && (r != st ==>
                  && source.Some? && st.currentSkeleton.Some?
                  && var nodes := st.currentSkeleton.value.nodes;
                  && var x := Relative(source.value.bounds.CenterX(), setup.device.screenWidth);
                  && var y := Relative(source.value.bounds.CenterY(), setup.device.screenHeight);
                  && exists k :: 0 <= k < |nodes| && HoldsPoint(nodes[k], x, y)
                       && (forall i :: 0 <= i < |nodes| && HoldsPoint(nodes[i], x, y) ==> Area(nodes[k]) <= Area(nodes[i]))
                       && r == Process(setup, st, InteractionSnapshot(st, source.value, t, nodes[k].id, x, y, now), now))
  {
    if source.Some? && st.currentSkeleton.Some? {
      var nodes := st.currentSkeleton.value.nodes;
      var x := Relative(source.value.bounds.CenterX(), setup.device.screenWidth);
      var y := Relative(source.value.bounds.CenterY(), setup.device.screenHeight);
      BestMatchIsFirstSmallest(nodes, x, y);
    }
  }

  /** Text changes count only on editable views, and the start of a touch counts for nothing. */
  lemma TextInputOnlyOnEditable(setup: Setup, st: ConsumerState, event: AccessibilityEvent, root: Option<UiNode>, now: int)
    requires ValidDevice(setup.device)
    requires event.eventType == TouchInteractionStart || event.eventType == OtherEvent
             || (event.eventType == ViewTextChanged && !(event.source.Some? && event.source.value.editable))
    ensures Consume(setup, st, event, root, now) == st
  {
  }

  /** The consumer. `init` is the constructor, with the screen size the display reports. */
  class UiTreeConsumer {
    const setup: Setup
    const batchManager: SB.SnapshotBatchManager
    var lastSignature: Option<string>
    var currentSkeleton: Option<TreeSkeleton>
    var lastContentChangeTime: int

    predicate Valid()
      reads this
    {
      ValidDevice(setup.device) && batchManager.batchSize == setup.batchSize
    }

    function Model(): ConsumerState
      reads this, batchManager
    {
      ConsumerState(lastSignature, currentSkeleton, lastContentChangeTime, batchManager.Model())
    }

    /** A batch manager with the default batch size over the staging table as it is. */
    constructor (device: Device, hash: string -> string, rows: seq<SB.SnapshotBatchRow>, lastId: int)
      requires ValidDevice(device)
      ensures Valid() && fresh(batchManager)
      ensures setup == Setup(device, hash, SB.DefaultBatchSize)
      ensures Model() == ConsumerState(None, None, 0, SB.ManagerState([], rows, lastId, []))
    {
      setup := Setup(device, hash, SB.DefaultBatchSize);
      batchManager := new SB.SnapshotBatchManager(SB.DefaultBatchSize, rows, lastId);
      lastSignature := None;
      currentSkeleton := None;
      lastContentChangeTime := 0;
    }

    method ProcessSnapshot(snapshot: ScreenSnapshot, now: int)
      requires Valid()
      modifies batchManager
      ensures Model() == Process(setup, old(Model()), snapshot, now)
    {
      batchManager.AddSnapshot(snapshot, now);
    }

    /** `captureTreeSkeleton`, with the root of the active window. */
    method CaptureTreeSkeleton(root: Option<UiNode>, now: int)
      requires Valid()
      modifies this, batchManager
      ensures Model() == Capture(setup, old(Model()), root, now)
    {
      if root.None? {
        return;
      }
      var framework := DetectFramework(root.value);
      var nodes := BuildSkeleton(setup.device, root.value, None, 0, []);
      if |nodes| == 0 {
        return;
      }
      var signature := Signature(setup.hash, nodes);
      var skeleton := TreeSkeleton(signature, nodes);
      if Some(signature) != lastSignature {
        var snapshot := ScreenSnapshot(now, root.value.packageName.GetOrElse("unknown"), framework, skeleton, None);
        currentSkeleton := Some(skeleton);
        lastSignature := Some(signature);
        ProcessSnapshot(snapshot, now);
      }
    }

    method CaptureTreeSkeletonDebounced(root: Option<UiNode>, now: int)
      requires Valid()
      modifies this, batchManager
      ensures Model() == CaptureDebounced(setup, old(Model()), root, now)
    {
      if now - lastContentChangeTime < ContentChangeDebounceMs {
        return;
      }
      lastContentChangeTime := now;
      CaptureTreeSkeleton(root, now);
    }

    method RecordInteraction(source: Option<UiNode>, t: InteractionType, now: int)
      requires Valid()
      modifies batchManager
      ensures Model() == Record(setup, old(Model()), source, t, now)
    {
      if source.None? || currentSkeleton.None? {
        return;
      }
      var bounds := source.value.bounds;
      var nodeId := FindNodeIdByBounds(setup.device, bounds, currentSkeleton.value);
      if nodeId.Some? {
        var x := Relative(bounds.CenterX(), setup.device.screenWidth);
        var y := Relative(bounds.CenterY(), setup.device.screenHeight);
        var snapshot := ScreenSnapshot(now, source.value.packageName.GetOrElse("unknown"), "",
                                       TreeSkeleton(lastSignature.GetOrElse(""), []), Some(InteractionEvent(t, nodeId.value, x, y)));
        ProcessSnapshot(snapshot, now);
      }
    }

    /** `consumeEvent` */
    method ConsumeEvent(event: AccessibilityEvent, root: Option<UiNode>, now: int)
      requires Valid()
      modifies this, batchManager
      ensures Model() == Consume(setup, old(Model()), event, root, now)
    {
      match event.eventType {
        case WindowStateChanged => CaptureTreeSkeleton(root, now);
        case WindowContentChanged => CaptureTreeSkeletonDebounced(root, now);
        case ViewClicked => RecordInteraction(event.source, Tap, now);
        case ViewLongClicked => RecordInteraction(event.source, LongPress, now);
        case ViewScrolled => RecordInteraction(event.source, ScrollGesture, now);
        case ViewTextChanged =>
          if event.source.Some? && event.source.value.editable {
            RecordInteraction(event.source, TextInput, now);
          }
        case GestureDetectionStart => RecordInteraction(event.source, Tap, now);
        case GestureDetectionEnd => RecordInteraction(event.source, Tap, now);
        case TouchInteractionStart =>
        case TouchInteractionEnd => RecordInteraction(event.source, Tap, now);
        case OtherEvent =>
      }
    }

    /** `shutdown`: the batch manager flushes what is queued. */
    method Shutdown(now: int)
      requires Valid()
      modifies batchManager
      ensures Model() == old(Model()).(batch := SB.Flush(old(Model()).batch, setup.batchSize, now))
    {
      batchManager.Shutdown(now);
    }
  }
}
