/**
 * How the accessibility tree consumer describes one node of the screen without its content:
 * the node's kind from its class name, the length of its text in word buckets, the ninth of
 * the screen that holds its centre, and its size as a share of the screen.
 *
 * Floating-point numbers are exact reals here; Kotlin's `Float` rounding is not modelled.
 */
module UiClassifiers {
  import opened Wrappers
  import opened Text
  import opened ScreenSnapshots

  // ---------------------------------------------------------------- node kinds

  predicate IsListName(c: string)
  {
    Contains(c, "recyclerview") || Contains(c, "listview") || Contains(c, "flatlist")
  }

  predicate IsScrollName(c: string)
  {
    Contains(c, "scrollview") || Contains(c, "nestedscrollview")
  }

  predicate IsInputName(c: string)
  {
    Contains(c, "edittext") || Contains(c, "textfield") || Contains(c, "textinput")
  }

  /**
   * `classifyNodeType`: the class name, lower-cased, is matched against the kinds in a fixed
   * order, and the first that matches wins; a node without a class name is UNKNOWN.
   */
  function ClassifyNodeType(className: Option<string>, clickable: bool, childCount: int): (r: NodeType)
    ensures className.None? ==> r == Unknown
    ensures className.Some? && IsListName(Lower(className.value)) ==> r == List
    ensures r == Container ==> className.Some? && childCount > 0
  {
    if className.None? then Unknown
    else
      var c := Lower(className.value);
      if IsListName(c) then List
      else if IsScrollName(c) then Scroll
      else if IsInputName(c) then Input
      else if Contains(c, "button") then Button
      else if clickable && Contains(c, "text") then Button
      else if Contains(c, "image") then Image
      else if Contains(c, "video") then Video
      else if Contains(c, "webview") then Web
      else if Contains(c, "text") then TextNode
      else if childCount > 0 then Container
      else Unknown
  }

  /** `isImageNode` */
  predicate IsImageNode(className: Option<string>)
  {
    className.Some? && Contains(Lower(className.value), "image")
  }

  /**
   * Being clickable only turns a text node into a button: when clickability changes the
   * kind, the class name mentions text, the clickable node is a BUTTON, and the other one is
   * one of the kinds matched after the button rule.
   */
  lemma ClickableOnlyMakesTextButtons(className: Option<string>, childCount: int)
    requires ClassifyNodeType(className, true, childCount) != ClassifyNodeType(className, false, childCount)
    ensures className.Some? && Contains(Lower(className.value), "text")
    ensures ClassifyNodeType(className, true, childCount) == Button
    ensures ClassifyNodeType(className, false, childCount) in {Image, Video, Web, TextNode}
  {
  }

  /** Children only separate a CONTAINER from an UNKNOWN node, the last two rules. */
  lemma ChildrenOnlyMakeContainers(className: Option<string>, clickable: bool, k1: int, k2: int)
    requires ClassifyNodeType(className, clickable, k1) != ClassifyNodeType(className, clickable, k2)
    ensures ClassifyNodeType(className, clickable, k1) in {Container, Unknown}
    ensures ClassifyNodeType(className, clickable, k2) in {Container, Unknown}
  {
  }

  /** The `nestedscrollview` test never decides anything: such a name contains `scrollview`. */
  lemma NestedScrollViewIsScrollView(c: string)
    requires Contains(c, "nestedscrollview")
    ensures Contains(c, "scrollview")
  {
    ContainsPart(c, "nestedscrollview", 6, 16);
    assert "nestedscrollview"[6..16] == "scrollview";
  }

  /** A node classified as an IMAGE is flagged as having an image. */
  lemma ImageKindHasImage(className: Option<string>, clickable: bool, childCount: int)
    requires ClassifyNodeType(className, clickable, childCount) == Image
    ensures IsImageNode(className)
  {
  }

  // ---------------------------------------------------------------- text length

  /** The characters of the regular expression `\s`: a part of Kotlin's whitespace. */
  predicate IsSpace(c: char)
    ensures IsSpace(c) ==> IsWhitespace(c)
  {
    c == ' ' || c == '\t' || c == '\n' || c == '\U{0B}' || c == '\U{0C}' || c == '\r'
  }

  /** The only whitespace in `s` is the whitespace of the regular expression `\s`. */
  predicate OnlyRegexWhitespace(s: string)
  {
    forall i :: 0 <= i < |s| ==> IsWhitespace(s[i]) ==> IsSpace(s[i])
  }

  /**
   * `split("\\s+".toRegex())`: the parts between maximal runs of whitespace, the empty ones
   * at either end included; there is always at least one part.
   */
  function SplitOnSpaces(s: string): (parts: seq<string>)
    ensures |parts| >= 1
  {
    if |s| == 0 then [""]
    else
      var init := SplitOnSpaces(s[..|s| - 1]);
      var c := s[|s| - 1];
      if !IsSpace(c) then init[..|init| - 1] + [init[|init| - 1] + [c]]
      else if |s| > 1 && IsSpace(s[|s| - 2]) then init
      else init + [""]
  }

  /** The positions where a run of whitespace (`space`) or of other characters (`!space`) begins. */
  function RunStarts(s: string, space: bool): nat
  {
    if |s| == 0 then 0
    else
      var starts := |s| == 1 || IsSpace(s[|s| - 2]) != space;
      RunStarts(s[..|s| - 1], space) + (if IsSpace(s[|s| - 1]) == space && starts then 1 else 0)
  }

  /** The number of words of `s`: the maximal runs of characters other than `\s` whitespace. */
  function Words(s: string): nat
  {
    RunStarts(s, false)
  }

  /** Splitting makes one more part than there are runs of whitespace. */
  lemma {:induction false} SplitCountsSpaceRuns(s: string)
    ensures |SplitOnSpaces(s)| == RunStarts(s, true) + 1
  {
    if |s| > 0 {
      SplitCountsSpaceRuns(s[..|s| - 1]);
    }
  }

  /** Words and runs of whitespace alternate: their counts differ by how the string begins and ends. */
  lemma {:induction false} RunsAlternate(s: string)
    requires |s| > 0
    ensures Words(s) - RunStarts(s, true) == (if IsSpace(s[0]) then 0 else 1) - (if IsSpace(s[|s| - 1]) then 1 else 0)
  {
    if |s| > 1 {
      var init := s[..|s| - 1];
      RunsAlternate(init);
      assert init[0] == s[0] && init[|init| - 1] == s[|s| - 2];
      var c := s[|s| - 1];
      assert Words(s) == Words(init) + (if !IsSpace(c) && IsSpace(s[|s| - 2]) then 1 else 0);
      assert RunStarts(s, true) == RunStarts(init, true) + (if IsSpace(c) && !IsSpace(s[|s| - 2]) then 1 else 0);
    } else {
      assert RunStarts(s[..0], true) == 0 && RunStarts(s[..0], false) == 0;
    }
  }

  /** `\s` whitespace at the end of a string begins no word. */
  lemma {:induction false} TrailingSpacesKeepWords(s: string, b: string)
    requires forall i :: 0 <= i < |b| ==> IsSpace(b[i])
    ensures Words(s + b) == Words(s)
  {
    if |b| > 0 {
      var t := s + b;
      assert t[..|t| - 1] == s + b[..|b| - 1];
      TrailingSpacesKeepWords(s, b[..|b| - 1]);
    } else {
      assert s + b == s;
    }
  }

  /** A `\s` whitespace character in front of a string begins no word. */
  lemma {:induction false} LeadingSpaceKeepsWords(c: char, s: string)
    requires IsSpace(c)
    ensures Words([c] + s) == Words(s)
  {
    if |s| > 0 {
      var t := [c] + s;
      assert t[..|t| - 1] == [c] + s[..|s| - 1];
      LeadingSpaceKeepsWords(c, s[..|s| - 1]);
    }
  }

  /** `\s` whitespace at the start of a string begins no word. */
  lemma {:induction false} LeadingSpacesKeepWords(a: string, s: string)
    requires forall i :: 0 <= i < |a| ==> IsSpace(a[i])
    ensures Words(a + s) == Words(s)
  {
    if |a| > 0 {
      assert forall i :: 0 <= i < |a| - 1 ==> a[1..][i] == a[i + 1];
      LeadingSpacesKeepWords(a[1..], s);
      assert a + s == [a[0]] + (a[1..] + s);
      LeadingSpaceKeepsWords(a[0], a[1..] + s);
    } else {
      assert a + s == s;
    }
  }

  /** A character in front of a string begins at most one more word. */
  lemma {:induction false} LeadingCharWords(c: char, s: string)
    ensures Words(s) <= Words([c] + s) <= Words(s) + 1
  {
    if |s| > 0 {
      var t := [c] + s;
      assert t[..|t| - 1] == [c] + s[..|s| - 1];
      LeadingCharWords(c, s[..|s| - 1]);
      if |s| == 1 {
        assert Words(s[..0]) == 0;
        assert ([c] + s[..0]) == [c] && Words([c][..0]) == 0;
      }
    }
  }

  /** Characters in front of a string never lose one of its words. */
  lemma {:induction false} PrefixKeepsWords(a: string, s: string)
    ensures Words(s) <= Words(a + s)
  {
    if |a| > 0 {
      PrefixKeepsWords(a[1..], s);
      assert a + s == [a[0]] + (a[1..] + s);
      LeadingCharWords(a[0], a[1..] + s);
    } else {
      assert a + s == s;
    }
  }

  /** Characters after a string never lose one of its words. */
  lemma {:induction false} SuffixKeepsWords(s: string, b: string)
    ensures Words(s) <= Words(s + b)
  {
    if |b| > 0 {
      var t := s + b;
      assert t[..|t| - 1] == s + b[..|b| - 1];
      SuffixKeepsWords(s, b[..|b| - 1]);
    } else {
      assert s + b == s;
    }
  }

  /** `s` cut into the part before `k`, `r`, and the rest. */
  lemma CutAt(s: string, r: string, k: int)
    requires TrimmedAt(s, r, k)
    ensures s == s[..k] + r + s[k + |r|..]
  {
  }

  /** Cutting whitespace off both ends never adds a word. */
  lemma CutNeverAddsWords(s: string, r: string, k: int)
    requires TrimmedAt(s, r, k)
    ensures Words(r) <= Words(s)
  {
    CutAt(s, r, k);
    var a := s[..k];
    var b := s[k + |r|..];
    PrefixKeepsWords(a, r);
    SuffixKeepsWords(a + r, b);
  }

  /** Cutting only `\s` whitespace off both ends keeps every word. */
  lemma CutSpacesKeepsWords(s: string, r: string, k: int)
    requires TrimmedAt(s, r, k) && OnlyRegexWhitespace(s)
    ensures Words(r) == Words(s)
  {
    CutAt(s, r, k);
    var a := s[..k];
    var b := s[k + |r|..];
    assert forall i :: 0 <= i < |a| ==> IsSpace(a[i]) by {
      forall i | 0 <= i < |a| ensures IsSpace(a[i]) {
        assert a[i] == s[i];
      }
    }
    assert forall i :: 0 <= i < |b| ==> IsSpace(b[i]) by {
      forall i | 0 <= i < |b| ensures IsSpace(b[i]) {
        assert b[i] == s[k + |r| + i];
      }
    }
    LeadingSpacesKeepWords(a, r);
    TrailingSpacesKeepWords(a + r, b);
  }

  /** `trim()` never adds a word; it can remove words made only of whitespace outside `\s`, such as a no-break space. */
  lemma TrimNeverAddsWords(s: string)
    ensures Words(Trim(s)) <= Words(s)
  {
    var r := Trim(s);
    var k :| TrimmedAt(s, r, k);
    CutNeverAddsWords(s, r, k);
  }

  /** When the only whitespace is `\s` whitespace, `trim()` keeps every word. */
  lemma TrimKeepsWords(s: string)
    requires OnlyRegexWhitespace(s)
    ensures Words(Trim(s)) == Words(s)
  {
    var r := Trim(s);
    var k :| TrimmedAt(s, r, k);
    CutSpacesKeepsWords(s, r, k);
  }

  /** The word count the consumer computes is the number of words of the trimmed text, for a text that is not blank. */
  lemma WordCountIsWords(s: string)
    requires !IsBlank(s)
    ensures |SplitOnSpaces(Trim(s))| == Words(Trim(s))
  {
    var t := Trim(s);
    SplitCountsSpaceRuns(t);
    RunsAlternate(t);
  }

  /** The bucket of a word count. */
  function CategoryOfCount(wordCount: int): TextCategory
  {
    if wordCount <= 2 then SingleWord
    else if wordCount <= 10 then ShortPhrase
    else if wordCount <= 30 then Sentence
    else if wordCount <= 100 then Paragraph
    else LongText
  }

  /** `categorizeText`: the text, or else the content description; neither gives no category. */
  function CategorizeText(text: Option<string>, contentDescription: Option<string>): (r: Option<TextCategory>)
    ensures r.None? <==> text.None? && contentDescription.None?
  {
    var s := if text.Some? then text else contentDescription;
    if s.None? then None
    else
      var wordCount := |SplitOnSpaces(Trim(s.value))|;
      if wordCount == 0 || IsBlank(s.value) then Some(Empty) else Some(CategoryOfCount(wordCount))
  }

  /** The order of the buckets, shortest first. */
  function CategoryRank(c: TextCategory): int
  {
    match c
    case Empty => 0
    case SingleWord => 1
    case ShortPhrase => 2
    case Sentence => 3
    case Paragraph => 4
    case LongText => 5
  }

  /**
   * A text is EMPTY exactly when it is blank; otherwise its category is the bucket of the
   * number of words of the trimmed text, at most 2, 10, 30, 100 words or more, which is the
   * number of words of the text itself when its only whitespace is `\s` whitespace. The text
   * wins over the content description.
   */
  lemma CategoryIsWordBucket(text: Option<string>, contentDescription: Option<string>)
    requires text.Some? || contentDescription.Some?
    ensures var s := if text.Some? then text.value else contentDescription.value;
            var r := CategorizeText(text, contentDescription);
            && (r == Some(Empty) <==> IsBlank(s))
            && (!IsBlank(s) ==> r == Some(CategoryOfCount(Words(Trim(s)))))
            && (!IsBlank(s) && OnlyRegexWhitespace(s) ==> r == Some(CategoryOfCount(Words(s))))
  {
    var s := if text.Some? then text.value else contentDescription.value;
    CategorizeBlank(s, text, contentDescription);
    BucketOfChosen(s, CategorizeText(text, contentDescription));
  }

  /** The category given to a chosen text: EMPTY exactly when blank, else the bucket of its words. */
  lemma BucketOfChosen(s: string, r: Option<TextCategory>)
    requires r == if IsBlank(s) then Some(Empty) else Some(CategoryOfCount(|SplitOnSpaces(Trim(s))|))
    ensures r == Some(Empty) <==> IsBlank(s)
    ensures !IsBlank(s) ==> r == Some(CategoryOfCount(Words(Trim(s))))
    ensures !IsBlank(s) && OnlyRegexWhitespace(s) ==> r == Some(CategoryOfCount(Words(s)))
  {
    if !IsBlank(s) {
      var n := |SplitOnSpaces(Trim(s))|;
      CategoryMonotone(n, n);
      WordCountIsWords(s);
      if OnlyRegexWhitespace(s) {
        TrimKeepsWords(s);
      }
    }
  }

  /** The category of the chosen text by its word count, EMPTY when it is blank. */
  lemma CategorizeBlank(s: string, text: Option<string>, contentDescription: Option<string>)
    requires text.Some? || contentDescription.Some?
    requires s == if text.Some? then text.value else contentDescription.value
    ensures var n := |SplitOnSpaces(Trim(s))|;
            CategorizeText(text, contentDescription) == if IsBlank(s) then Some(Empty) else Some(CategoryOfCount(n))
  {
  }

  /**
   * A no-break space is trimmed and blank like any other whitespace: "a b" followed by one is
   * two words, and a space followed by one is EMPTY.
   */
  lemma NoBreakSpaceIsWhitespace()
    ensures CategorizeText(Some("a b \U{A0}"), None) == Some(SingleWord)
    ensures CategorizeText(Some(" \U{A0}"), None) == Some(Empty)
  {
    var s := "a b \U{A0}";
    TrimEndsAtNoBreakSpace();
    TwoWordsSplit();
    assert !IsBlank(s) by {
      assert !IsWhitespace(s[0]);
    }
    CategorizeByCount(s, "a b", 2);
    var b := " \U{A0}";
    assert IsBlank(b) by {
      assert IsWhitespace(b[0]) && IsWhitespace(b[1]);
    }
    CategorizeBlank(b, Some(b), None);
  }

  /** A text that is not blank and trims to `t` is bucketed by the words of `t`. */
  lemma CategorizeByCount(s: string, t: string, n: int)
    requires !IsBlank(s) && Trim(s) == t && |SplitOnSpaces(t)| == n
    ensures CategorizeText(Some(s), None) == Some(CategoryOfCount(n))
  {
    CategorizeBlank(s, Some(s), None);
  }

  lemma TrimEndsAtNoBreakSpace()
    ensures Trim("a b \U{A0}") == "a b"
  {
    var t := "a b";
    var tail := " \U{A0}";
    assert t + tail == "a b \U{A0}";
    TrimDropsTrailing(t, tail);
  }

  /** Whitespace after a text with no whitespace at either end is all that trimming removes. */
  lemma TrimDropsTrailing(t: string, tail: string)
    requires |t| > 0 && !IsWhitespace(t[0]) && !IsWhitespace(t[|t| - 1])
    requires forall i :: 0 <= i < |tail| ==> IsWhitespace(tail[i])
    ensures Trim(t + tail) == t
  {
    assert TrimStart(t + tail) == t + tail by {
      assert (t + tail)[0] == t[0];
    }
    TrimEndDropsTrailing(t, tail);
  }

  lemma {:induction false} TrimEndDropsTrailing(t: string, tail: string)
    requires |t| > 0 && !IsWhitespace(t[|t| - 1])
    requires forall i :: 0 <= i < |tail| ==> IsWhitespace(tail[i])
    ensures TrimEnd(t + tail) == t
  {
    if |tail| == 0 {
      assert t + tail == t;
    } else {
      var s := t + tail;
      var init := tail[..|tail| - 1];
      assert s[..|s| - 1] == t + init;
      assert s[|s| - 1] == tail[|tail| - 1];
      TrimEndDropsTrailing(t, init);
    }
  }

  lemma TwoWordsSplit()
    ensures |SplitOnSpaces("a b")| == 2
  {
    var t := "a b";
    assert t[..2] == "a " && t[..2][..1] == "a" && "a"[..0] == "";
  }

  /** More words never give a shorter bucket. */
  lemma CategoryMonotone(m: int, n: int)
    requires m <= n
    ensures CategoryRank(CategoryOfCount(m)) <= CategoryRank(CategoryOfCount(n))
    ensures CategoryOfCount(m) != Empty
  {
  }

  // ---------------------------------------------------------------- geometry

  /** `android.graphics.Rect` */
  datatype Rect = Rect(left: int, top: int, right: int, bottom: int)
  {
    function Width(): int { right - left }
    function Height(): int { bottom - top }
    /** `centerX()`: `(left + right) >> 1`, rounded down. */
    function CenterX(): int { (left + right) / 2 }
    function CenterY(): int { (top + bottom) / 2 }
  }

  /** A coordinate as a share of the screen's extent. */
  function Relative(v: int, extent: int): real
    requires extent > 0
  {
    v as real / extent as real
  }

  /** The third of the screen a share falls into: before 0.33, before 0.67, or after. */
  function Band(v: real): (b: int)
    ensures 0 <= b <= 2
  {
    if v < 0.33 then 0 else if v < 0.67 then 1 else 2
  }

  /** A further share never falls into an earlier third. */
  lemma BandMonotone(u: real, v: real)
    requires u <= v
    ensures Band(u) <= Band(v)
  {
  }

  /** `ScreenRegion.values()[i]` */
  function RegionAt(i: int): ScreenRegion
    requires 0 <= i < 9
  {
    [TopLeft, TopCenter, TopRight, MiddleLeft, Center, MiddleRight, BottomLeft, BottomCenter, BottomRight][i]
  }

  /** The row and the column of a region, top-left first. */
  function RowOf(r: ScreenRegion): int
  {
    match r
    case TopLeft => 0 case TopCenter => 0 case TopRight => 0
    case MiddleLeft => 1 case Center => 1 case MiddleRight => 1
    case BottomLeft => 2 case BottomCenter => 2 case BottomRight => 2
  }

  function ColumnOf(r: ScreenRegion): int
  {
    match r
    case TopLeft => 0 case MiddleLeft => 0 case BottomLeft => 0
    case TopCenter => 1 case Center => 1 case BottomCenter => 1
    case TopRight => 2 case MiddleRight => 2 case BottomRight => 2
  }

  /** `calculateRegion`: the region in the row of the centre's height and the column of its width. */
  function CalculateRegion(bounds: Rect, screenWidth: int, screenHeight: int): (r: ScreenRegion)
    requires screenWidth > 0 && screenHeight > 0
    ensures RowOf(r) == Band(Relative(bounds.CenterY(), screenHeight))
    ensures ColumnOf(r) == Band(Relative(bounds.CenterX(), screenWidth))
  {
    var col := Band(Relative(bounds.CenterX(), screenWidth));
    var row := Band(Relative(bounds.CenterY(), screenHeight));
    assert 0 <= row * 3 + col <= 8;
    RegionAt(row * 3 + col)
  }

  /** A region is told apart by its row and column: the index `row * 3 + col` names it alone. */
  lemma RegionIndexIsExact(r: ScreenRegion)
    ensures RegionAt(RowOf(r) * 3 + ColumnOf(r)) == r
  {
  }

  /** The size class of a share of the screen's area: below 5%, 15%, 40%, 80%, or more. */
  function SizeClassOfShare(share: real): SizeClass
  {
    if share < 0.05 then Tiny
    else if share < 0.15 then Small
    else if share < 0.40 then Medium
    else if share < 0.80 then Large
    else Fullscreen
  }

  function SizeRank(c: SizeClass): int
  {
    match c
    case Tiny => 0
    case Small => 1
    case Medium => 2
    case Large => 3
    case Fullscreen => 4
  }

  /** `calculateSizeClass`: the node's area as a share of the screen's. */
  function CalculateSizeClass(bounds: Rect, screenWidth: int, screenHeight: int): SizeClass
    requires screenWidth > 0 && screenHeight > 0
  {
    var area := bounds.Width() * bounds.Height();
    SizeClassOfShare(area as real / (screenWidth * screenHeight) as real)
  }

  /** A larger share never has a smaller size class. */
  lemma SizeClassMonotone(s: real, t: real)
    requires s <= t
    ensures SizeRank(SizeClassOfShare(s)) <= SizeRank(SizeClassOfShare(t))
  {
  }

  /** Dividing by the same positive number keeps the order. */
  lemma DivideKeepsOrder(x: real, y: real, d: real)
    requires x <= y && d > 0.0
    ensures x / d <= y / d
  {
  }

  /** On one screen, a node with a larger area never has a smaller size class. */
  lemma LargerNodeLargerClass(a: Rect, b: Rect, screenWidth: int, screenHeight: int)
    requires screenWidth > 0 && screenHeight > 0
    requires a.Width() * a.Height() <= b.Width() * b.Height()
    ensures SizeRank(CalculateSizeClass(a, screenWidth, screenHeight)) <= SizeRank(CalculateSizeClass(b, screenWidth, screenHeight))
  {
    var screen := screenWidth * screenHeight;
    assert screen > 0 by {
      PositiveProduct(screenWidth, screenHeight);
    }
    var areaA := a.Width() * a.Height();
    var areaB := b.Width() * b.Height();
    DivideKeepsOrder(areaA as real, areaB as real, screen as real);
    SizeClassMonotone(areaA as real / screen as real, areaB as real / screen as real);
  }

  /** A node that covers the whole screen is FULLSCREEN. */
  lemma WholeScreenIsFullscreen(screenWidth: int, screenHeight: int)
    requires screenWidth > 0 && screenHeight > 0
    ensures CalculateSizeClass(Rect(0, 0, screenWidth, screenHeight), screenWidth, screenHeight) == Fullscreen
  {
    var screen := screenWidth * screenHeight;
    assert screen > 0 by {
      PositiveProduct(screenWidth, screenHeight);
    }
    assert Rect(0, 0, screenWidth, screenHeight).Width() * Rect(0, 0, screenWidth, screenHeight).Height() == screen;
    assert screen as real / screen as real == 1.0;
  }

  lemma PositiveProduct(x: int, y: int)
    requires x > 0 && y > 0
    ensures x * y > 0
  {
  }
}
