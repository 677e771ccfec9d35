/**
 * The figure that draws a subjob: a title bar (the outline rectangle with
 * the title and the collapse control) over a body rectangle. Refreshing it
 * reads the subjob's properties, prefixes the title of pre- and post-jobs,
 * replaces missing or forbidden colours by the preference defaults (and
 * stores them back), and re-stacks the two rectangles.
 */
module SubjobFigure {
  import opened Common

  const PrejobComponent := "tPrejob"
  const PostjobComponent := "tPostjob"
  const PrejobPrefix := " Prejob:"
  const PostjobPrefix := " Postjob:"

  datatype RGB = RGB(red: int, green: int, blue: int)

  /** The parts of the subjob figure, and any other child the figure holds. */
  datatype Figure = Outline | Rect | Title | Collapse | Other(id: nat)

  /** The node that starts the subjob. */
  datatype StartNode = StartNode(componentName: string, isJoblet: bool)

  /**
   * The colour services of the host: the two preference colours, the
   * fallback colour of the parser, the forbidden values of the two colour
   * properties, and conversions between RGB values and their text form.
   */
  datatype ColorEnv = ColorEnv(
    titleDefault: RGB,
    subjobDefault: RGB,
    subjobFallback: RGB,
    forbiddenTitle: set<string>,
    forbiddenSubjob: set<string>,
    format: RGB -> string,
    parse: (string, RGB) -> RGB,
    parseStrict: string -> RGB)

  /** The border getBorder returns: a 2-pixel solid line, or the inherited one. */
  datatype Border = LineBorder(width: int, solid: bool) | InheritedBorder

  // ---------------------------------------------------------------------
  // Value-level definitions
  // ---------------------------------------------------------------------

  /** What updateData puts in front of the title, given the start component. */
  function TitlePrefix(componentName: string): string
  {
    if componentName == PrejobComponent then PrejobPrefix
    else if componentName == PostjobComponent then PostjobPrefix
    else ""
  }

  /** A colour property value updateData keeps: set, not empty and not forbidden. */
  predicate Acceptable(v: Option<string>, forbidden: set<string>)
  {
    v.Some? && v.value != "" && v.value !in forbidden
  }

  /** The value a colour property has after updateData. */
  function Fixed(v: Option<string>, forbidden: set<string>, default: string): (r: string)
    ensures Acceptable(v, forbidden) ==> Some(r) == v
    ensures !Acceptable(v, forbidden) ==> r == default
  {
    if Acceptable(v, forbidden) then v.value else default
  }

  /** The list without its first occurrence of `x` (List.remove). */
  function RemoveFirst(s: seq<Figure>, x: Figure): (r: seq<Figure>)
    ensures x in s ==> |r| == |s| - 1
    ensures x !in s ==> r == s
  {
    if s == [] then []
    else if s[0] == x then s[1..]
    else [s[0]] + RemoveFirst(s[1..], x)
  }

  /** The children that are neither of the two rectangles, in order. */
  function OtherChildren(s: seq<Figure>): (r: seq<Figure>)
    ensures Outline !in r && Rect !in r
  {
    if s == [] then []
    else if s[0] == Outline || s[0] == Rect then OtherChildren(s[1..])
    else [s[0]] + OtherChildren(s[1..])
  }

  /** No figure is a child twice. */
  predicate Distinct(s: seq<Figure>)
  {
    forall i, j :: 0 <= i < j < |s| ==> s[i] != s[j]
  }

  /** The two rectangles in their stacking order: the body first when the title is shown. */
  function Stack(showTitle: bool): seq<Figure>
  {
    if showTitle then [Rect, Outline] else [Outline, Rect]
  }

  /** Insertion at an index (List.add(index, element)). */
  function InsertAt(s: seq<Figure>, i: nat, x: Figure): (r: seq<Figure>)
    requires i <= |s|
    ensures |r| == |s| + 1 && r[i] == x
  {
    s[..i] + [x] + s[i..]
  }

  /** The figure's children after updateData: both rectangles removed, then added back at 0 and 1. */
  function Restacked(children: seq<Figure>, showTitle: bool): (r: seq<Figure>)
  {
    var rest := RemoveFirst(RemoveFirst(children, Outline), Rect);
    var first := if showTitle then Rect else Outline;
    var second := if showTitle then Outline else Rect;
    InsertAt(InsertAt(rest, 0, first), 1, second)
  }

  /** In a distinct list the head does not occur again. */
  lemma HeadNotInTail(s: seq<Figure>)
    requires Distinct(s) && s != []
    ensures s[0] !in s[1..]
  {
    forall k | 0 <= k < |s[1..]|
      ensures s[1..][k] != s[0]
    {
      assert s[1..][k] == s[k + 1];
    }
  }

  /** A distinct list's tail is distinct. */
  lemma DistinctTail(s: seq<Figure>)
    requires Distinct(s) && s != []
    ensures Distinct(s[1..])
  {
    forall i, j | 0 <= i < j < |s[1..]|
      ensures s[1..][i] != s[1..][j]
    {
      assert s[1..][i] == s[i + 1] && s[1..][j] == s[j + 1];
    }
  }

  /** A fresh figure in front of a distinct list keeps it distinct. */
  lemma DistinctCons(x: Figure, t: seq<Figure>)
    requires Distinct(t) && x !in t
    ensures Distinct([x] + t)
  {
    forall i, j | 0 <= i < j < |[x] + t|
      ensures ([x] + t)[i] != ([x] + t)[j]
    {
      if i > 0 {
        assert ([x] + t)[i] == t[i - 1] && ([x] + t)[j] == t[j - 1];
      } else {
        assert ([x] + t)[j] in t;
      }
    }
  }

  /** OtherChildren of a list with one more child in front. */
  lemma OthersCons(x: Figure, s: seq<Figure>)
    ensures OtherChildren([x] + s) == if x == Outline || x == Rect then OtherChildren(s) else [x] + OtherChildren(s)
  {
    assert ([x] + s)[1..] == s;
  }

  lemma {:induction false} RemoveFirstOthers(s: seq<Figure>, x: Figure)
    requires Distinct(s) && (x == Outline || x == Rect)
    ensures Distinct(RemoveFirst(s, x)) && x !in RemoveFirst(s, x)
    ensures forall y :: y in RemoveFirst(s, x) <==> y in s && y != x
    ensures OtherChildren(RemoveFirst(s, x)) == OtherChildren(s)
  {
    if s != [] {
      DistinctTail(s);
      if s[0] == x {
        assert forall k :: 0 <= k < |s[1..]| ==> s[1..][k] == s[k + 1];
      } else {
        RemoveFirstOthers(s[1..], x);
        var t := RemoveFirst(s[1..], x);
        HeadNotInTail(s);
        DistinctCons(s[0], t);
        assert ([s[0]] + t)[1..] == t;
      }
    }
  }

  /** The rectangles' children after updateData: the title in the outline, the collapse control in the one on top. */
  function OutlineChildren(showTitle: bool): seq<Figure>
  {
    if showTitle then [Title, Collapse] else [Title]
  }

  function RectChildren(showTitle: bool): seq<Figure>
  {
    if showTitle then [] else [Collapse]
  }

  /**
   * Child order after updateData: the two rectangles come first, in the
   * order Stack gives, and every other child follows in its old order.
   */
  lemma RestackedOrder(children: seq<Figure>, showTitle: bool)
    requires Distinct(children)
    ensures Restacked(children, showTitle) == Stack(showTitle) + OtherChildren(children)
    ensures Distinct(Restacked(children, showTitle))
  {
    RemoveFirstOthers(children, Outline);
    var r1 := RemoveFirst(children, Outline);
    RemoveFirstOthers(r1, Rect);
    var rest := RemoveFirst(r1, Rect);
    assert Outline !in rest && Rect !in rest;
    OthersOfClean(rest);
    assert rest == OtherChildren(children);
    var first := if showTitle then Rect else Outline;
    var second := if showTitle then Outline else Rect;
    assert InsertAt(rest, 0, first) == [first] + rest;
    assert InsertAt([first] + rest, 1, second) == Stack(showTitle) + rest;
    DistinctOthers(children);
  }

  /** A list without either rectangle is its own OtherChildren. */
  lemma {:induction false} OthersOfClean(s: seq<Figure>)
    requires Outline !in s && Rect !in s
    ensures OtherChildren(s) == s
  {
    if s != [] {
      assert s[0] in s;
      assert forall y :: y in s[1..] ==> y in s;
      OthersOfClean(s[1..]);
    }
  }

  // ---------------------------------------------------------------------
  // The subjob and its figure
  // ---------------------------------------------------------------------

  /** The subjob's properties as the figure reads and writes them. */
  datatype Properties = Properties(
    showSubjobTitle: bool,
    subjobTitle: string,
    titleColor: Option<string>,
    subjobColor: Option<string>,
    showTitleParamShown: bool)

  /** The figure's own state. */
  datatype Drawing = Drawing(
    showTitle: bool,
    title: string,
    subjobTitleColor: RGB,
    mainColor: RGB,
    children: seq<Figure>,
    outlineChildren: seq<Figure>,
    rectChildren: seq<Figure>)

  /** updateData on the subjob properties. */
  function PropertiesUpdated(p: Properties, start: StartNode, env: ColorEnv): (r: Properties)
  {
    p.(titleColor := Some(Fixed(p.titleColor, env.forbiddenTitle, env.format(env.titleDefault))),
       subjobColor := Some(Fixed(p.subjobColor, env.forbiddenSubjob, env.format(env.subjobDefault))),
       showTitleParamShown := TitlePrefix(start.componentName) == "")
  }

  /** updateData on the figure; it reads the properties before they are fixed up. */
  function DrawingUpdated(d: Drawing, p: Properties, start: StartNode, env: ColorEnv): (r: Drawing)
  {
    var subjobColor := Fixed(p.subjobColor, env.forbiddenSubjob, env.format(env.subjobDefault));
    d.(showTitle := p.showSubjobTitle,
       title := TitlePrefix(start.componentName) + p.subjobTitle,
       mainColor := env.parse(subjobColor, env.subjobFallback),
       children := Restacked(d.children, p.showSubjobTitle),
       outlineChildren := OutlineChildren(p.showSubjobTitle),
       rectChildren := RectChildren(p.showSubjobTitle))
  }

  /**
   * updateData: the title is the subjob title behind the pre/post-job
   * prefix (and the show-title parameter is hidden exactly for those), the
   * colour properties are kept when acceptable and replaced by the
   * preference defaults otherwise, and the main colour is parsed from the
   * subjob colour the properties now hold.
   */
  lemma UpdateDataMeaning(d: Drawing, p: Properties, start: StartNode, env: ColorEnv)
    ensures var d1 := DrawingUpdated(d, p, start, env);
      var p1 := PropertiesUpdated(p, start, env);
      var special := start.componentName == PrejobComponent || start.componentName == PostjobComponent;
      d1.showTitle == p.showSubjobTitle &&
      (start.componentName == PrejobComponent ==> d1.title == " Prejob:" + p.subjobTitle) &&
      (start.componentName == PostjobComponent ==> d1.title == " Postjob:" + p.subjobTitle) &&
      (!special ==> d1.title == p.subjobTitle) &&
      p1.showTitleParamShown == !special &&
      (Acceptable(p.titleColor, env.forbiddenTitle) ==> p1.titleColor == p.titleColor) &&
      (!Acceptable(p.titleColor, env.forbiddenTitle) ==> p1.titleColor == Some(env.format(env.titleDefault))) &&
      (Acceptable(p.subjobColor, env.forbiddenSubjob) ==> p1.subjobColor == p.subjobColor) &&
      (!Acceptable(p.subjobColor, env.forbiddenSubjob) ==> p1.subjobColor == Some(env.format(env.subjobDefault))) &&
      d1.mainColor == env.parse(p1.subjobColor.value, env.subjobFallback) &&
      d1.subjobTitleColor == d.subjobTitleColor &&
      p1.showSubjobTitle == p.showSubjobTitle && p1.subjobTitle == p.subjobTitle
  {
  }

  /**
   * updateData a second time changes nothing: the title is rebuilt from the
   * property (the prefix is not doubled), a replaced colour is replaced by
   * the same default, and the rectangles stay where they are.
   */
  lemma UpdateDataIdempotent(d: Drawing, p: Properties, start: StartNode, env: ColorEnv)
    requires Distinct(d.children)
    ensures var d1 := DrawingUpdated(d, p, start, env);
      var p1 := PropertiesUpdated(p, start, env);
      DrawingUpdated(d1, p1, start, env) == d1 && PropertiesUpdated(p1, start, env) == p1
  {
    var show := p.showSubjobTitle;
    RestackedOrder(d.children, show);
    var c1 := Restacked(d.children, show);
    RestackedOrder(c1, show);
    OthersTwice(d.children, show);
  }

  /** OtherChildren of a list keeps it distinct, and the stack in front keeps it so. */
  lemma DistinctOthers(s: seq<Figure>)
    requires Distinct(s)
    ensures Distinct(Stack(true) + OtherChildren(s)) && Distinct(Stack(false) + OtherChildren(s))
  {
    OthersSubseq(s);
    var o := OtherChildren(s);
    forall b: bool
      ensures Distinct(Stack(b) + o)
    {
      var t := Stack(b) + o;
      forall i, j | 0 <= i < j < |t|
        ensures t[i] != t[j]
      {
        if i >= 2 {
          assert t[i] == o[i - 2] && t[j] == o[j - 2];
        } else if j >= 2 {
          assert t[j] == o[j - 2];
          assert t[j] in o;
        }
      }
    }
  }

  /** OtherChildren keeps a list distinct. */
  lemma {:induction false} OthersSubseq(s: seq<Figure>)
    requires Distinct(s)
    ensures Distinct(OtherChildren(s))
    ensures forall y :: y in OtherChildren(s) ==> y in s
  {
    if s != [] {
      DistinctTail(s);
      OthersSubseq(s[1..]);
      var t := OtherChildren(s[1..]);
      assert forall y :: y in s[1..] ==> y in s;
      if !(s[0] == Outline || s[0] == Rect) {
        HeadNotInTail(s);
        DistinctCons(s[0], t);
      }
    }
  }

  /** Restacking a restacked list gives the same list. */
  lemma OthersTwice(s: seq<Figure>, show: bool)
    ensures OtherChildren(Stack(show) + OtherChildren(s)) == OtherChildren(s)
  {
    var o := OtherChildren(s);
    OthersOfClean(o);
    var a, b := Stack(show)[0], Stack(show)[1];
    assert Stack(show) + o == [a] + ([b] + o);
    OthersCons(a, [b] + o);
    OthersCons(b, o);
  }

  /** initSubJobTitleColor on the title colour property and the figure's title colour. */
  function TitleColorInitialized(titleColor: Option<string>, env: ColorEnv): (Option<string>, RGB)
  {
    if titleColor.None? || titleColor.value in env.forbiddenTitle then
      (Some(env.format(env.titleDefault)), env.titleDefault)
    else
      (titleColor, env.parse(titleColor.value, env.titleDefault))
  }

  /**
   * initSubJobTitleColor settles the property: afterwards it always holds a
   * value, initialising again leaves that value alone, and the property was
   * rewritten only when the figure fell back to the preference default.
   */
  lemma TitleColorSettles(titleColor: Option<string>, env: ColorEnv)
    ensures var (stored, color) := TitleColorInitialized(titleColor, env);
      stored.Some? &&
      TitleColorInitialized(stored, env).0 == stored &&
      (stored != titleColor ==> color == env.titleDefault)
  {
  }

  /** isJobletContainer: there is a start node and it is NOT a joblet. */
  predicate IsJobletContainer(start: Option<StartNode>)
  {
    start.Some? && !start.value.isJoblet
  }

  /** getBorder: a 2-pixel solid line around a subjob started by a non-joblet node, else the inherited border. */
  function GetBorder(start: Option<StartNode>): (r: Border)
    ensures r.LineBorder? <==> start.Some? && !start.value.isJoblet
    ensures r.LineBorder? ==> r.width == 2 && r.solid
    ensures !r.LineBorder? ==> r == InheritedBorder
  {
    if IsJobletContainer(start) then LineBorder(2, true) else InheritedBorder
  }

  /** The subjob container as the figure sees it: its properties and start node. */
  class SubjobContainer {
    var properties: Properties
    const startNode: Option<StartNode>

    constructor (properties: Properties, startNode: Option<StartNode>)
      ensures this.properties == properties && this.startNode == startNode
    {
      this.properties := properties;
      this.startNode := startNode;
    }
  }

  class SubjobContainerFigure {
    const container: SubjobContainer
    const env: ColorEnv
    var showTitle: bool
    var title: string
    var subjobTitleColor: RGB
    var mainColor: RGB
    var children: seq<Figure>
    var outlineChildren: seq<Figure>
    var rectChildren: seq<Figure>

    /** The figure's state as a value. */
    function Current(): Drawing
      reads this
    {
      Drawing(showTitle, title, subjobTitleColor, mainColor, children, outlineChildren, rectChildren)
    }

    /**
     * The constructor runs initSubJobTitleColor and updateData on a figure
     * with no children yet.
     */
    constructor (container: SubjobContainer, env: ColorEnv)
      requires container.startNode.Some?
      modifies container
      ensures this.container == container && this.env == env
      ensures var (stored, color) := TitleColorInitialized(old(container.properties).titleColor, env);
        var p0 := old(container.properties).(titleColor := stored);
        container.properties == PropertiesUpdated(p0, container.startNode.value, env) &&
        Current() == DrawingUpdated(Drawing(false, "", color, env.subjobFallback, [], [], []), p0,
                                    container.startNode.value, env)
    {
      this.container := container;
      this.env := env;
      showTitle := false;
      title := "";
      mainColor := env.subjobFallback;
      children := [];
      outlineChildren := [];
      rectChildren := [];
      subjobTitleColor := env.titleDefault;
      new;
      InitSubJobTitleColor();
      UpdateData();
    }

    /** initSubJobTitleColor. */
    method InitSubJobTitleColor()
      requires container.startNode.Some?
      modifies container`properties, this`subjobTitleColor
      ensures var (stored, color) := TitleColorInitialized(old(container.properties).titleColor, env);
        container.properties == old(container.properties).(titleColor := stored) && subjobTitleColor == color
    {
      // The pre/post-job test here has an empty branch; it is only evaluated.
      var special := container.startNode.value.componentName == PrejobComponent
                  || container.startNode.value.componentName == PostjobComponent;
      var value := container.properties.titleColor;
      if value.None? || value.value in env.forbiddenTitle {
        subjobTitleColor := env.titleDefault;
        container.properties := container.properties.(titleColor := Some(env.format(subjobTitleColor)));
      } else {
        subjobTitleColor := env.parse(value.value, env.titleDefault);
      }
    }

    /** updateData: the title, the colour properties, then the stacking of the rectangles. */
    method UpdateData()
      requires container.startNode.Some?
      modifies this`showTitle, this`title, this`mainColor, this`children, this`outlineChildren,
               this`rectChildren, container`properties
      ensures container.properties == PropertiesUpdated(old(container.properties), container.startNode.value, env)
      ensures Current() == DrawingUpdated(old(Current()), old(container.properties), container.startNode.value, env)
    {
      UpdateTitle();
      FixColors();
      Restack();
    }

    /** The title part of updateData, with the visibility of the show-title parameter. */
    method UpdateTitle()
      requires container.startNode.Some?
      modifies this`showTitle, this`title, container`properties
      ensures showTitle == old(container.properties).showSubjobTitle
      ensures title == TitlePrefix(container.startNode.value.componentName) + old(container.properties).subjobTitle
      ensures container.properties ==
        old(container.properties).(showTitleParamShown := TitlePrefix(container.startNode.value.componentName) == "")
    {
      showTitle := container.properties.showSubjobTitle;
      title := container.properties.subjobTitle;
      var name := container.startNode.value.componentName;
      if name == PrejobComponent {
        title := PrejobPrefix + title;
        container.properties := container.properties.(showTitleParamShown := false);
      } else if name == PostjobComponent {
        title := PostjobPrefix + title;
        container.properties := container.properties.(showTitleParamShown := false);
      } else {
        container.properties := container.properties.(showTitleParamShown := true);
      }
    }

    /** The colour part of updateData. */
    method FixColors()
      modifies this`mainColor, container`properties
      ensures var p := old(container.properties);
        var subjobColor := Fixed(p.subjobColor, env.forbiddenSubjob, env.format(env.subjobDefault));
        container.properties == p.(titleColor := Some(Fixed(p.titleColor, env.forbiddenTitle, env.format(env.titleDefault))),
                                   subjobColor := Some(subjobColor)) &&
        mainColor == env.parse(subjobColor, env.subjobFallback)
    {
      var titleColor := container.properties.titleColor;
      if titleColor.None? || titleColor.value == "" || titleColor.value in env.forbiddenTitle {
        container.properties := container.properties.(titleColor := Some(env.format(env.titleDefault)));
      }
      var subjobColor := container.properties.subjobColor;
      var propertyValue: string;
      if subjobColor.None? || subjobColor.value == "" || subjobColor.value in env.forbiddenSubjob {
        propertyValue := env.format(env.subjobDefault);
        container.properties := container.properties.(subjobColor := Some(propertyValue));
      } else {
        propertyValue := subjobColor.value;
      }
      mainColor := env.parse(propertyValue, env.subjobFallback);
    }

    /** The stacking part of updateData. */
    method Restack()
      modifies this`children, this`outlineChildren, this`rectChildren
      ensures children == Restacked(old(children), showTitle)
      ensures outlineChildren == OutlineChildren(showTitle) && rectChildren == RectChildren(showTitle)
    {
      children := RemoveFirst(children, Outline);
      children := RemoveFirst(children, Rect);
      outlineChildren := [];
      rectChildren := [];
      if showTitle {
        outlineChildren := outlineChildren + [Title];
        outlineChildren := outlineChildren + [Collapse];
        children := InsertAt(children, 0, Rect);
        children := InsertAt(children, 1, Outline);
      } else {
        outlineChildren := outlineChildren + [Title];
        rectChildren := rectChildren + [Collapse];
        children := InsertAt(children, 0, Outline);
        children := InsertAt(children, 1, Rect);
      }
    }

    /**
     * updateSubJobTitleColor: a set, non-empty title colour is parsed
     * directly; otherwise initSubJobTitleColor runs. updateData follows.
     */
    method UpdateSubJobTitleColor()
      requires container.startNode.Some?
      modifies this`showTitle, this`title, this`mainColor, this`children, this`outlineChildren,
               this`rectChildren, this`subjobTitleColor, container`properties
      ensures var v := old(container.properties).titleColor;
        var (stored, color) := if v.Some? && v.value != "" then (v, env.parseStrict(v.value))
                               else TitleColorInitialized(v, env);
        var p0 := old(container.properties).(titleColor := stored);
        container.properties == PropertiesUpdated(p0, container.startNode.value, env) &&
        Current() == DrawingUpdated(old(Current()).(subjobTitleColor := color), p0, container.startNode.value, env)
    {
      var rgb := container.properties.titleColor;
      if rgb.Some? && rgb.value != "" {
        subjobTitleColor := env.parseStrict(rgb.value);
      } else {
        InitSubJobTitleColor();
      }
      UpdateData();
    }
  }
}
