/**
  The demo's post-processing switcher (`PostProcessSwitcher`).

  On `Start` it creates one post-processing pass per effect, every one of
  them switched off and registered with the scene, and lays out a panel with
  one toggle button per pass. Each GUI frame highlights the buttons of the
  passes that are on and flips the pass of every button clicked.
*/
module PostProcessing {

  // ------------------------------------------------------------- the passes

  /** The effects the switcher offers, in the order it creates them. */
  datatype PassKind =
    | AmbientObscurance | FastBloom | C64Filter | CgaFilter | ConvolutionFilter | FilmFilter
    | GrayScaleFilter | AverageColorFilter | MotionBlur | Refraction | Vignette | GlobalFog | Fxaa

  /** A post-processing pass; the scene runs it while it is enabled. */
  class PostProcessPass {
    const kind: PassKind
    var enabled: bool

    constructor (kind: PassKind)
      ensures this.kind == kind
    {
      this.kind := kind;
      enabled := true;
    }
  }

  /** The scene the switcher's game object belongs to; it keeps the post-processing passes added to it. */
  class GameScene {
    var postProcesses: seq<PostProcessPass>

    constructor ()
      ensures postProcesses == []
    {
      postProcesses := [];
    }

    method Add(pass: PostProcessPass)
      modifies this
      ensures postProcesses == old(postProcesses) + [pass]
    {
      postProcesses := postProcesses + [pass];
    }
  }

  /** The passes `Start` creates: ambient obscurance only in builds without the `DESKTOP` symbol. */
  function PassKinds(desktop: bool): seq<PassKind> {
    (if desktop then [] else [AmbientObscurance])
      + [FastBloom, C64Filter, CgaFilter, ConvolutionFilter, FilmFilter, GrayScaleFilter,
         AverageColorFilter, MotionBlur, Refraction, Vignette, GlobalFog, Fxaa]
  }

  /** The button titles `Start` lists, under the same `DESKTOP` condition. */
  function Titles(desktop: bool): seq<string> {
    (if desktop then [] else ["Ambient Obscurance"])
      + ["Bloom", "C64 Filter", "CGA Filter", "Convolution", "Film", "GrayScale",
         "Average Color", "Motion Blur", "Refraction", "Vignette", "Global Fog", "FXAA"]
  }

  /** The title that names each effect on its button. */
  function Title(k: PassKind): string {
    match k
    case AmbientObscurance => "Ambient Obscurance"
    case FastBloom => "Bloom"
    case C64Filter => "C64 Filter"
    case CgaFilter => "CGA Filter"
    case ConvolutionFilter => "Convolution"
    case FilmFilter => "Film"
    case GrayScaleFilter => "GrayScale"
    case AverageColorFilter => "Average Color"
    case MotionBlur => "Motion Blur"
    case Refraction => "Refraction"
    case Vignette => "Vignette"
    case GlobalFog => "Global Fog"
    case Fxaa => "FXAA"
  }

  /**
    In either build, the titles and the passes come in the same number and
    the same order, so button `i` names pass `i`.
  */
  lemma TitlesMatchPasses(desktop: bool)
    ensures |Titles(desktop)| == |PassKinds(desktop)| == if desktop then 12 else 13
    ensures forall i | 0 <= i < |Titles(desktop)| :: Titles(desktop)[i] == Title(PassKinds(desktop)[i])
  {
  }

  // ------------------------------------------------------------- the layout

  datatype Rectangle = Rectangle(x: int, y: int, width: int, height: int)

  datatype Widget = Widget(rect: Rectangle, name: string, rectExt: Rectangle)

  /** The panel: 210 wide, 10 from the top and right of the virtual screen, 45 high per button. */
  function BoxRect(virtualWidth: int, count: nat): Rectangle {
    Rectangle(virtualWidth - 220, 10, 210, 45 * count)
  }

  /** Button `i`: inset 10 from the panel's sides, 30 below its top, 30 high, one every 40 down. */
  function WidgetRect(box: Rectangle, i: nat): Rectangle {
    Rectangle(box.x + 10, box.y + 30 + 40 * i, box.width - 20, 30)
  }

  /**
    The closed form agrees with the way `Start` places the buttons: the first
    30 below the panel's top, each later one 40 below the one before it, all
    at the same left edge and of the same size.
  */
  lemma WidgetSteps(box: Rectangle, i: nat)
    ensures i == 0 ==> WidgetRect(box, i) == Rectangle(box.x + 10, box.y + 30, box.width - 20, 30)
    ensures i > 0 ==> WidgetRect(box, i) == WidgetRect(box, i - 1).(y := WidgetRect(box, i - 1).y + 40)
  {
  }

  /** The highlight behind a button: one more to the left and to the top, same right and bottom edges. */
  function Ext(r: Rectangle): (e: Rectangle)
    ensures e.x == r.x - 1 && e.y == r.y - 1
    ensures e.x + e.width == r.x + r.width && e.y + e.height == r.y + r.height
  {
    Rectangle(r.x - 1, r.y - 1, r.width + 1, r.height + 1)
  }

  predicate Inside(inner: Rectangle, outer: Rectangle) {
    && outer.x <= inner.x && inner.x + inner.width <= outer.x + outer.width
    && outer.y <= inner.y && inner.y + inner.height <= outer.y + outer.height
  }

  /** The widget `Start` puts at index `i`. */
  function LaidOut(box: Rectangle, titles: seq<string>, i: nat): Widget
    requires i < |titles|
  {
    Widget(WidgetRect(box, i), titles[i], Ext(WidgetRect(box, i)))
  }

  /**
    With at least four buttons, every button and its highlight lie inside the
    panel; with fewer, the panel's 45 per button is too short for the 30 of
    header and 40 per button the layout uses.
  */
  lemma WidgetsInsideBox(virtualWidth: int, count: nat, i: nat)
    requires 4 <= count && i < count
    ensures Inside(WidgetRect(BoxRect(virtualWidth, count), i), BoxRect(virtualWidth, count))
    ensures Inside(Ext(WidgetRect(BoxRect(virtualWidth, count), i)), BoxRect(virtualWidth, count))
  {
    assert 40 * i <= 40 * count - 40;
  }

  /** Buttons do not overlap, and a later one lies further down, 10 below the bottom of every earlier one. */
  lemma WidgetsApart(box: Rectangle, i: nat, j: nat)
    requires i < j
    ensures WidgetRect(box, i).y + WidgetRect(box, i).height + 10 <= WidgetRect(box, j).y
  {
    assert 40 * i + 40 <= 40 * j;
  }

  // -------------------------------------------------------- the GUI frame

  /** `SetPassActive(i)` on the flags: pass `i` flips and every other pass keeps its flag. */
  function Toggle(flags: seq<bool>, i: nat): (r: seq<bool>)
    requires i < |flags|
    ensures |r| == |flags|
  {
    flags[i := !flags[i]]
  }

  /**
    The pass flags after one frame, as the frame produces them: button by
    button, in order, a clicked button toggles its pass.
  */
  function AfterClicks(flags: seq<bool>, clicked: seq<bool>): (r: seq<bool>)
    requires |clicked| <= |flags|
    ensures |r| == |flags|
    decreases |clicked|
  {
    if clicked == [] then flags
    else
      var before := AfterClicks(flags, clicked[..|clicked| - 1]);
      if clicked[|clicked| - 1] then Toggle(before, |clicked| - 1) else before
  }

  /** After a frame, pass `i` is flipped exactly when its button was clicked; passes without a button keep their flag. */
  lemma {:induction false} AfterClicksFlips(flags: seq<bool>, clicked: seq<bool>)
    requires |clicked| <= |flags|
    ensures forall i | 0 <= i < |flags| ::
      AfterClicks(flags, clicked)[i] == if i < |clicked| then flags[i] != clicked[i] else flags[i]
    decreases |clicked|
  {
    if clicked != [] {
      var n := |clicked| - 1;
      var prefix := clicked[..n];
      AfterClicksFlips(flags, prefix);
      forall i | 0 <= i < |flags|
        ensures AfterClicks(flags, clicked)[i] == if i < |clicked| then flags[i] != clicked[i] else flags[i]
      {
        assert i < n ==> prefix[i] == clicked[i];
      }
    }
  }

  /** Clicking a button twice leaves its pass as it was. */
  lemma ClickTwiceRestores(flags: seq<bool>, clicked: seq<bool>)
    requires |clicked| <= |flags|
    ensures AfterClicks(AfterClicks(flags, clicked), clicked) == flags
  {
    var once := AfterClicks(flags, clicked);
    var twice := AfterClicks(once, clicked);
    AfterClicksFlips(flags, clicked);
    AfterClicksFlips(once, clicked);
    assert forall i | 0 <= i < |flags| :: twice[i] == flags[i];
  }

  // ------------------------------------------------------------ the switcher

  class PostProcessSwitcher {
    const scene: GameScene
    var boxRect: Rectangle
    var widgets: array?<Widget>
    var passes: seq<PostProcessPass>

    /** No pass is listed twice. */
    predicate DistinctPasses()
      reads this
    {
      forall i, j | 0 <= i < j < |passes| :: passes[i] != passes[j]
    }

    /** Whether each listed pass is on. */
    function Enabled(): (flags: seq<bool>)
      reads this, passes
      ensures |flags| == |passes|
      ensures forall i | 0 <= i < |passes| :: flags[i] == passes[i].enabled
    {
      seq(|passes|, i requires 0 <= i < |passes| reads this, passes => passes[i].enabled)
    }

    constructor (scene: GameScene)
      ensures this.scene == scene && passes == [] && widgets == null
    {
      this.scene := scene;
      passes := [];
      widgets := null;
      boxRect := Rectangle(0, 0, 0, 0);
    }

    /** Registers `pass` switched off: it is disabled, added to the scene and appended to the list. */
    method AddPostProcess(pass: PostProcessPass)
      modifies pass, this, scene
      ensures !pass.enabled
      ensures scene.postProcesses == old(scene.postProcesses) + [pass]
      ensures passes == old(passes) + [pass]
      ensures widgets == old(widgets) && boxRect == old(boxRect)
    {
      pass.enabled := false;
      scene.Add(pass);
      passes := passes + [pass];
    }

    /** Flips pass `index` and no other. */
    method SetPassActive(index: nat)
      requires index < |passes| && DistinctPasses()
      modifies passes[index]
      ensures passes[index].enabled == !old(passes[index].enabled)
      ensures forall k | 0 <= k < |passes| && k != index :: passes[k].enabled == old(passes[k].enabled)
    {
      passes[index].enabled := !passes[index].enabled;
    }

    /**
      Creates the passes of `PassKinds(desktop)`, in that order, each new,
      switched off by `AddPostProcess` and added to the scene.
    */
    method AddPasses(desktop: bool)
      requires DistinctPasses()
      modifies this, scene
      ensures DistinctPasses() && widgets == old(widgets) && boxRect == old(boxRect)
      ensures |passes| == |old(passes)| + |PassKinds(desktop)| && passes[..|old(passes)|] == old(passes)
      ensures scene.postProcesses == old(scene.postProcesses) + passes[|old(passes)|..]
      ensures forall k | |old(passes)| <= k < |passes| ::
        fresh(passes[k]) && passes[k].kind == PassKinds(desktop)[k - |old(passes)|] && !passes[k].enabled
    {
      var kinds := PassKinds(desktop);
      for i := 0 to |kinds|
        invariant DistinctPasses() && widgets == old(widgets) && boxRect == old(boxRect)
        invariant |passes| == |old(passes)| + i && passes[..|old(passes)|] == old(passes)
        invariant scene.postProcesses == old(scene.postProcesses) + passes[|old(passes)|..]
        invariant forall k | |old(passes)| <= k < |passes| ::
          fresh(passes[k]) && passes[k].kind == kinds[k - |old(passes)|] && !passes[k].enabled
      {
        var pass := new PostProcessPass(kinds[i]);
        AddPostProcess(pass);
      }
    }

    /**
      Lays out the panel for `titles`: the box, then one widget per title,
      the first 30 below the box's top and each later one 40 below the one
      before it.
    */
    method LayoutWidgets(virtualWidth: int, titles: seq<string>)
      modifies this
      ensures passes == old(passes)
      ensures boxRect == BoxRect(virtualWidth, |titles|)
      ensures widgets != null && fresh(widgets) && widgets.Length == |titles|
      ensures forall i | 0 <= i < |titles| :: widgets[i] == LaidOut(boxRect, titles, i)
    {
      var count := |titles|;
      var box := Rectangle(virtualWidth - 220, 10, 210, 45 * count);
      var ws := new Widget[count](_ => Widget(Rectangle(0, 0, 0, 0), "", Rectangle(0, 0, 0, 0)));
      for i := 0 to count
        invariant forall k | 0 <= k < i :: ws[k] == LaidOut(box, titles, k)
        invariant passes == old(passes)
      {
        var rect;
        if i == 0 {
          rect := Rectangle(box.x + 10, box.y + 30, box.width - 20, 30);
        } else {
          rect := Rectangle(box.x + 10, ws[i - 1].rect.y + 40, box.width - 20, 30);
        }
        ws[i] := Widget(rect, titles[i], Rectangle(rect.x - 1, rect.y - 1, rect.width + 1, rect.height + 1));
      }
      boxRect, widgets := box, ws;
    }

    /**
      Creates and registers the passes, then lays out one button per title;
      button `i` is titled after pass `i`.
    */
    method Start(desktop: bool, virtualWidth: int)
      requires DistinctPasses()
      modifies this, scene
      ensures DistinctPasses()
      ensures |passes| == |old(passes)| + |PassKinds(desktop)| && passes[..|old(passes)|] == old(passes)
      ensures scene.postProcesses == old(scene.postProcesses) + passes[|old(passes)|..]
      ensures forall k | |old(passes)| <= k < |passes| ::
        fresh(passes[k]) && passes[k].kind == PassKinds(desktop)[k - |old(passes)|] && !passes[k].enabled
      ensures boxRect == BoxRect(virtualWidth, |Titles(desktop)|)
      ensures widgets != null && fresh(widgets) && widgets.Length == |Titles(desktop)|
      ensures forall i | 0 <= i < widgets.Length :: widgets[i] == LaidOut(boxRect, Titles(desktop), i)
    {
      AddPasses(desktop);
      LayoutWidgets(virtualWidth, Titles(desktop));
    }

    /**
      One GUI frame. Button `i` is highlighted exactly when pass `i` was on at
      the start of the frame, and pass `i` ends the frame flipped exactly when
      its button was clicked; `clicked[i]` is what the GUI reports for button
      `i`.
    */
    method OnGui(clicked: seq<bool>) returns (highlighted: seq<bool>)
      requires widgets != null && widgets.Length <= |passes| && DistinctPasses()
      requires |clicked| == widgets.Length
      modifies set i | 0 <= i < |passes| :: passes[i]
      ensures highlighted == old(Enabled())[..widgets.Length]
      ensures Enabled() == AfterClicks(old(Enabled()), clicked)
    {
      var n := widgets.Length;
      highlighted := [];
      ghost var start := Enabled();
      for i := 0 to n
        invariant highlighted == start[..i]
        invariant forall k | 0 <= k < |passes| :: passes[k].enabled == if k < i then start[k] != clicked[k] else start[k]
      {
        highlighted := highlighted + [passes[i].enabled];
        if clicked[i] {
          SetPassActive(i);
        }
      }
      AfterClicksFlips(start, clicked);
      assert Enabled() == AfterClicks(start, clicked);
    }
  }
}
