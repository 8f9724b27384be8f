/**
 * The editor's scene: a z-ordered list of placed sprites (index 0 is the
 * back-most) kept inside the scene document, the hit test that finds the
 * object under a point, and the list surgery the editor performs on it.
 */
module Scenes {

  import opened Wrappers
  import opened Graphics
  import opened Document

  datatype SceneError = ImageNotFound(sprite: string)

  /**
   * The sprite directory as the editor sees it: the image files that load,
   * by name, with their pixel sizes. A name outside the map fails to load.
   */
  type ImageFiles = map<string, Size>

  /** The size of the image the editor draws for `name`: the file's size, zoomed by `scale`. */
  function ImageSize(files: ImageFiles, name: string, scale: int): (r: Result<Size, SceneError>)
    ensures r.Success? <==> name in files
    ensures r.Failure? ==> r.error == ImageNotFound(name)
    ensures r.Success? && scale <= 1 ==> r.value == files[name]
    ensures r.Success? && scale > 1 ==> r.value.w == scale * files[name].w && r.value.h == scale * files[name].h
  {
    if name in files then Success(Scaled(files[name], scale)) else Failure(ImageNotFound(name))
  }

  /** `o`'s image loads and its bounding rectangle contains `pos`. */
  predicate Hit(files: ImageFiles, scale: int, o: SceneObject, pos: Point)
  {
    o.sprite in files && Contains(o.pos, Scaled(files[o.sprite], scale), pos)
  }

  /** `o`'s image loads and its bounding rectangle does not contain `pos`. */
  predicate Miss(files: ImageFiles, scale: int, o: SceneObject, pos: Point)
  {
    o.sprite in files && !Contains(o.pos, Scaled(files[o.sprite], scale), pos)
  }

  /**
   * The hit test, scanning back to front from index `from`: the first object
   * whose rectangle contains `pos` wins; an object whose image does not load
   * stops the scan with an error before any later object is looked at.
   */
  function HitTest(objs: seq<SceneObject>, files: ImageFiles, scale: int, pos: Point, from: nat): (r: Result<Option<nat>, SceneError>)
    requires from <= |objs|
    ensures r.Success? && r.value.Some? ==>
      var n := r.value.value;
      from <= n < |objs| && Hit(files, scale, objs[n], pos) &&
      forall k | from <= k < n :: Miss(files, scale, objs[k], pos)
    ensures r == Success(None) ==> forall k | from <= k < |objs| :: Miss(files, scale, objs[k], pos)
    ensures r.Failure? ==>
      exists k | from <= k < |objs| ::
        objs[k].sprite !in files && r.error == ImageNotFound(objs[k].sprite) &&
        forall j | from <= j < k :: Miss(files, scale, objs[j], pos)
    decreases |objs| - from
  {
    if from == |objs| then Success(None)
    else
      match ImageSize(files, objs[from].sprite, scale)
      case Failure(e) => Failure(e)
      case Success(size) =>
        if Contains(objs[from].pos, size, pos) then Success(Some(from))
        else HitTest(objs, files, scale, pos, from + 1)
  }

  // ---------------------------------------------------------------------
  // List surgery, as functions of the list before the operation

  /** The list with entry `n` placed at `to`. */
  function Moved(objs: seq<SceneObject>, n: nat, to: Point): (r: seq<SceneObject>)
    requires n < |objs|
    ensures |r| == |objs|
  {
    objs[n := objs[n].(pos := to)]
  }

  /** The list without entry `n`; later entries move down one place. */
  function Deleted(objs: seq<SceneObject>, n: nat): (r: seq<SceneObject>)
    requires n < |objs|
    ensures |r| == |objs| - 1
  {
    objs[..n] + objs[n + 1..]
  }

  /** The list with a copy of entry `n` inserted just after it. */
  function Copied(objs: seq<SceneObject>, n: nat): (r: seq<SceneObject>)
    requires n < |objs|
    ensures |r| == |objs| + 1
  {
    objs[..n + 1] + [objs[n]] + objs[n + 1..]
  }

  /** The list with entry `n` taken out and put back at index 0. */
  function ToBackground(objs: seq<SceneObject>, n: nat): (r: seq<SceneObject>)
    requires n < |objs|
    ensures |r| == |objs|
  {
    [objs[n]] + Deleted(objs, n)
  }

  /** The list with entry `n` taken out and appended as the front-most entry. */
  function ToForeground(objs: seq<SceneObject>, n: nat): (r: seq<SceneObject>)
    requires n < |objs|
    ensures |r| == |objs|
  {
    Deleted(objs, n) + [objs[n]]
  }

  /** Moving changes the position of entry `n` and nothing else. */
  lemma MovedChangesOnlyThat(objs: seq<SceneObject>, n: nat, to: Point)
    requires n < |objs|
    ensures Moved(objs, n, to)[n] == SceneObject(objs[n].sprite, to)
    ensures forall i | 0 <= i < |objs| && i != n :: Moved(objs, n, to)[i] == objs[i]
  {
  }

  /** Deleting removes exactly entry `n`: earlier entries stay, later ones move down one place. */
  lemma DeletedShifts(objs: seq<SceneObject>, n: nat)
    requires n < |objs|
    ensures forall i | 0 <= i < n :: Deleted(objs, n)[i] == objs[i]
    ensures forall i | n <= i < |objs| - 1 :: Deleted(objs, n)[i] == objs[i + 1]
    ensures multiset(Deleted(objs, n)) + multiset{objs[n]} == multiset(objs)
  {
    assert objs == objs[..n] + [objs[n]] + objs[n + 1..];
  }

  /**
   * Copying inserts a duplicate of entry `n` at `n + 1`: entries up to `n`
   * stay, later ones move up one place.
   */
  lemma CopiedShifts(objs: seq<SceneObject>, n: nat)
    requires n < |objs|
    ensures forall i | 0 <= i <= n :: Copied(objs, n)[i] == objs[i]
    ensures Copied(objs, n)[n + 1] == objs[n]
    ensures forall i | n + 1 < i < |objs| + 1 :: Copied(objs, n)[i] == objs[i - 1]
    ensures multiset(Copied(objs, n)) == multiset(objs) + multiset{objs[n]}
  {
    assert objs == objs[..n + 1] + objs[n + 1..];
  }

  /**
   * Sending to the back puts entry `n` at index 0 and keeps the other entries
   * in their relative order behind it; the entries are permuted, not changed.
   */
  lemma ToBackgroundPermutes(objs: seq<SceneObject>, n: nat)
    requires n < |objs|
    ensures ToBackground(objs, n)[0] == objs[n]
    ensures ToBackground(objs, n)[1..] == Deleted(objs, n)
    ensures multiset(ToBackground(objs, n)) == multiset(objs)
  {
    DeletedShifts(objs, n);
  }

  /**
   * Bringing to the front puts entry `n` at the last index and keeps the
   * other entries in their relative order before it; the entries are
   * permuted, not changed.
   */
  lemma ToForegroundPermutes(objs: seq<SceneObject>, n: nat)
    requires n < |objs|
    ensures ToForeground(objs, n)[|objs| - 1] == objs[n]
    ensures ToForeground(objs, n)[..|objs| - 1] == Deleted(objs, n)
    ensures multiset(ToForeground(objs, n)) == multiset(objs)
  {
    DeletedShifts(objs, n);
  }

  /** Moving an object twice to the same place is the same as moving it once. */
  lemma MoveIdempotent(objs: seq<SceneObject>, n: nat, to: Point)
    requires n < |objs|
    ensures Moved(Moved(objs, n, to), n, to) == Moved(objs, n, to)
  {
  }

  /** Moving an object to where it already is changes nothing. */
  lemma MoveInPlace(objs: seq<SceneObject>, n: nat)
    requires n < |objs|
    ensures Moved(objs, n, objs[n].pos) == objs
  {
  }

  /** Deleting the copy just made restores the list. */
  lemma DeleteUndoesCopy(objs: seq<SceneObject>, n: nat)
    requires n < |objs|
    ensures Deleted(Copied(objs, n), n + 1) == objs
  {
  }

  /**
   * Bringing an entry to the front and then sending the front-most entry to
   * the back puts that entry at index 0 with the others in their original
   * order.
   */
  lemma FrontThenBack(objs: seq<SceneObject>, n: nat)
    requires n < |objs|
    ensures ToBackground(ToForeground(objs, n), |objs| - 1) == ToBackground(objs, n)
  {
    var f := ToForeground(objs, n);
    assert Deleted(f, |objs| - 1) == f[..|f| - 1];
  }

  /** Sending an entry to the back and then bringing index 0 to the front equals bringing it to the front. */
  lemma BackThenFront(objs: seq<SceneObject>, n: nat)
    requires n < |objs|
    ensures ToForeground(ToBackground(objs, n), 0) == ToForeground(objs, n)
  {
    var b := ToBackground(objs, n);
    assert Deleted(b, 0) == b[1..];
  }

  // ---------------------------------------------------------------------
  // The Scene class

  /**
   * A scene: the sprite directory it draws from and the scene document
   * (source: the `scene` attribute), whose persisted fields are read with
   * their defaults and whose `objects` array the operations rewrite.
   */
  class Scene {
    const spritesDir: string
    var doc: Doc

    predicate Valid()
      reads this
    {
      WellFormed(doc)
    }

    /** The scene objects, back-most first. */
    function Objects(): seq<SceneObject>
      reads this
      requires Valid()
    {
      ObjectsOf(doc)
    }

    function Scale(): int
      reads this
      requires Valid()
    {
      ScaleOf(doc)
    }

    /**
     * A new scene over `spritesDir`: without a scene file the document is
     * empty, so every persisted field reads as its default; with one, the
     * document is the file's parsed content.
     */
    constructor (spritesDir: string, sceneFile: Option<Doc>)
      requires sceneFile.Some? ==> WellFormed(sceneFile.value)
      ensures Valid()
      ensures this.spritesDir == spritesDir
      ensures doc == if sceneFile.Some? then sceneFile.value else map[]
      ensures sceneFile.None? ==> Objects() == [] && Scale() == 1
    {
      this.spritesDir := spritesDir;
      doc := if sceneFile.Some? then sceneFile.value else map[];
    }

    /** Replaces the document's object array by the encoding of `objs`. */
    method SetObjects(objs: seq<SceneObject>)
      requires Valid()
      modifies this`doc
      ensures doc == old(doc)["objects" := EncodeObjects(objs)]
      ensures Valid() && Objects() == objs && Scale() == old(Scale())
    {
      StoreObjects(doc, objs);
      doc := doc["objects" := EncodeObjects(objs)];
    }

    /**
     * The index of the back-most object under `pos`, if any; loading an
     * image that is not there is an error.
     */
    method ObjectAt(pos: Point, files: ImageFiles) returns (r: Result<Option<nat>, SceneError>)
      requires Valid()
      ensures r == HitTest(Objects(), files, Scale(), pos, 0)
    {
      var objs := Objects();
      var n := 0;
      while n < |objs|
        invariant 0 <= n <= |objs|
        invariant HitTest(objs, files, Scale(), pos, n) == HitTest(objs, files, Scale(), pos, 0)
      {
        var img := ImageSize(files, objs[n].sprite, Scale());
        if img.Failure? {
          return Failure(img.error);
        }
        if Contains(objs[n].pos, img.value, pos) {
          return Success(Some(n));
        }
        n := n + 1;
      }
      return Success(None);
    }

    /** How far `pos` lies from object `n`'s origin: the grab offset a drag keeps. */
    function DistToObject(n: nat, pos: Point): (d: Point)
      reads this
      requires Valid() && n < |Objects()|
      ensures Plus(Objects()[n].pos, d) == pos
    {
      Minus(pos, Objects()[n].pos)
    }

    method MoveObject(n: nat, to: Point)
      requires Valid() && n < |Objects()|
      modifies this`doc
      ensures Valid() && Objects() == Moved(old(Objects()), n, to) && Scale() == old(Scale())
      ensures doc == old(doc)["objects" := EncodeObjects(Objects())]
    {
      SetObjects(Objects()[n := Objects()[n].(pos := to)]);
    }

    method DeleteObject(n: nat)
      requires Valid() && n < |Objects()|
      modifies this`doc
      ensures Valid() && Objects() == Deleted(old(Objects()), n) && Scale() == old(Scale())
      ensures doc == old(doc)["objects" := EncodeObjects(Objects())]
    {
      var objs := Objects();
      SetObjects(objs[..n] + objs[n + 1..]);
    }

    /** Inserts a copy of object `n` just after it and returns the copy's index. */
    method CopyObject(n: nat) returns (r: nat)
      requires Valid() && n < |Objects()|
      modifies this`doc
      ensures Valid() && Objects() == Copied(old(Objects()), n) && Scale() == old(Scale())
      ensures doc == old(doc)["objects" := EncodeObjects(Objects())]
      ensures r == n + 1 && r < |Objects()| && Objects()[r] == old(Objects())[n]
    {
      var objs := Objects();
      var copy := objs[n];
      SetObjects(objs[..n + 1] + [copy] + objs[n + 1..]);
      r := n + 1;
      CopiedShifts(objs, n);
    }

    /** Moves object `n` to the back (index 0) and returns its new index. */
    method PutToBackground(n: nat) returns (r: nat)
      requires Valid() && n < |Objects()|
      modifies this`doc
      ensures Valid() && Objects() == ToBackground(old(Objects()), n) && Scale() == old(Scale())
      ensures doc == old(doc)["objects" := EncodeObjects(Objects())]
      ensures r == 0 && Objects()[r] == old(Objects())[n]
    {
      var ob := Objects()[n];
      DeleteObject(n);
      SetObjects([ob] + Objects());
      r := 0;
    }

    /** Moves object `n` to the front (the last index) and returns its new index. */
    method PutToForeground(n: nat) returns (r: nat)
      requires Valid() && n < |Objects()|
      modifies this`doc
      ensures Valid() && Objects() == ToForeground(old(Objects()), n) && Scale() == old(Scale())
      ensures doc == old(doc)["objects" := EncodeObjects(Objects())]
      ensures r == |Objects()| - 1 && Objects()[r] == old(Objects())[n]
    {
      var ob := Objects()[n];
      DeleteObject(n);
      SetObjects(Objects() + [ob]);
      r := |Objects()| - 1;
    }
  }
}
