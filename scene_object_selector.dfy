/**
  The editor's selection holder (`SceneObjectSelector`).

  It remembers the scene object the user picked, that object's bounding-box
  renderer (found on the object or added to it) and its renderable
  component. Selecting shows the bounding box; deselecting hides it and
  forgets all three.
*/
module Selection {

  /** A renderer that draws an object's bounding box while it is enabled. */
  class BoundingBoxRenderer {
    var enabled: bool

    /** A component added by `AddComponent` starts enabled. */
    constructor ()
      ensures enabled
    {
      enabled := true;
    }
  }

  /** The renderable component of an object (mesh, sprite, ...); only its identity matters here. */
  class RenderableComponent {
    constructor ()
    {
    }
  }

  /**
    An object of the scene, with the components of the two kinds the
    selector looks for, in the order they were added.
  */
  class SceneObject {
    var boxRenderers: seq<BoundingBoxRenderer>
    var renderables: seq<RenderableComponent>

    constructor (boxRenderers: seq<BoundingBoxRenderer>, renderables: seq<RenderableComponent>)
      ensures this.boxRenderers == boxRenderers && this.renderables == renderables
    {
      this.boxRenderers := boxRenderers;
      this.renderables := renderables;
    }

    /** `GetComponent<BoundingBoxRenderer>()`: the first one, or null when there is none. */
    function BoxRenderer(): (b: BoundingBoxRenderer?)
      reads this
      ensures b == null <==> boxRenderers == []
      ensures b != null ==> b in boxRenderers && b == boxRenderers[0]
    {
      if boxRenderers == [] then null else boxRenderers[0]
    }

    /** `GetComponent<RenderableComponent>()`: the first one, or null when there is none. */
    function Renderable(): (c: RenderableComponent?)
      reads this
      ensures c == null <==> renderables == []
      ensures c != null ==> c in renderables && c == renderables[0]
    {
      if renderables == [] then null else renderables[0]
    }

    /** `AddComponent<BoundingBoxRenderer>()`: a new renderer, appended to the object's components. */
    method AddBoxRenderer() returns (b: BoundingBoxRenderer)
      modifies this
      ensures fresh(b) && b.enabled
      ensures boxRenderers == old(boxRenderers) + [b] && renderables == old(renderables)
    {
      b := new BoundingBoxRenderer();
      boxRenderers := boxRenderers + [b];
    }
  }

  class SceneObjectSelector {
    var sceneObject: SceneObject?
    var boundingBoxRenderer: BoundingBoxRenderer?
    var renderer: RenderableComponent?

    /** An object is selected exactly when its bounding-box renderer is held; nothing else is held without one. */
    predicate Valid()
      reads this
    {
      && (sceneObject == null <==> boundingBoxRenderer == null)
      && (sceneObject == null ==> renderer == null)
    }

    constructor ()
      ensures Valid() && IsNull()
      ensures boundingBoxRenderer == null && renderer == null
    {
      sceneObject, boundingBoxRenderer, renderer := null, null, null;
    }

    /** Nothing is selected. */
    function IsNull(): (r: bool)
      reads this
      ensures r <==> !IsEqualTo(sceneObject)
    {
      sceneObject == null
    }

    /** `other` is the selected object; false whenever nothing is selected, even for a null `other`. */
    function IsEqualTo(other: SceneObject?): (r: bool)
      reads this
      ensures r ==> other != null && other == sceneObject
      ensures sceneObject != null && other == sceneObject ==> r
    {
      if sceneObject == null then false else other == sceneObject
    }

    /**
      Makes `o` the selected object. Its first bounding-box renderer is kept,
      or one is added when it has none; its first renderable component, if
      any, is remembered.
    */
    method Set(o: SceneObject)
      modifies this, o
      ensures sceneObject == o && Valid() && !IsNull() && IsEqualTo(o)
      ensures old(o.boxRenderers) != [] ==> o.boxRenderers == old(o.boxRenderers) && boundingBoxRenderer == o.boxRenderers[0]
      ensures old(o.boxRenderers) == [] ==>
        |o.boxRenderers| == 1 && fresh(boundingBoxRenderer) && boundingBoxRenderer == o.boxRenderers[0]
      ensures o.renderables == old(o.renderables) && renderer == o.Renderable()
    {
      sceneObject := o;
      boundingBoxRenderer := o.BoxRenderer();
      if boundingBoxRenderer == null {
        boundingBoxRenderer := o.AddBoxRenderer();
      }
      renderer := o.Renderable();
    }

    /**
      With an object selected, shows or hides its bounding box; hiding it
      also forgets the object, the box renderer and the renderable. With no
      object selected nothing changes.
    */
    method Select(isSelected: bool)
      requires Valid()
      modifies this, boundingBoxRenderer
      ensures Valid()
      ensures old(sceneObject) == null ==>
        sceneObject == null && boundingBoxRenderer == null && renderer == null
      ensures old(sceneObject) != null ==> old(boundingBoxRenderer).enabled == isSelected
      ensures old(sceneObject) != null && isSelected ==>
        sceneObject == old(sceneObject) && boundingBoxRenderer == old(boundingBoxRenderer) && renderer == old(renderer)
      ensures old(sceneObject) != null && !isSelected ==>
        IsNull() && boundingBoxRenderer == null && renderer == null
    {
      if sceneObject != null {
        boundingBoxRenderer.enabled := isSelected;
        if !isSelected {
          renderer := null;
          boundingBoxRenderer := null;
          sceneObject := null;
        }
      }
    }
  }

  /** Nothing is selected exactly when the selector equals no object at all. */
  lemma NullEqualsNothing(s: SceneObjectSelector)
    ensures s.IsNull() <==> forall o: SceneObject? :: !s.IsEqualTo(o)
  {
    if !s.IsNull() {
      assert s.IsEqualTo(s.sceneObject);
    }
  }
}
