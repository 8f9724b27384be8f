/**
 * The animation previewer: a playback speed and a zoom factor driven by
 * the keyboard, a tick counter, and the frame list rebuilt from the image
 * directory on every tick. The frame shown is the counter divided by
 * speed + 1, taken modulo the number of frames.
 */
module Animation {

  import opened Graphics
  import opened Input

  /** The keyboard-driven part of the previewer's state. */
  datatype Controls = Controls(speed: int, scale: int, quit: bool)

  /** The bounds the clamped keys keep: speed never negative, zoom at least 1. */
  predicate InRange(c: Controls)
  {
    c.speed >= 0 && c.scale >= 1
  }

  /** Speed 4 and zoom 1 when the previewer starts. */
  const InitialControls := Controls(4, 1, false)

  /**
   * A key press: q slows the frame hold down to a floor of 0, w raises it,
   * e shrinks the zoom down to a floor of 1, r enlarges it; t and every
   * other key do nothing.
   */
  function OnKey(c: Controls, key: Key): (r: Controls)
    ensures InRange(c) ==> InRange(r)
    ensures r.quit == c.quit
    ensures key != Q && key != W ==> r.speed == c.speed
    ensures key != E && key != R ==> r.scale == c.scale
  {
    match key
    case Q => c.(speed := if c.speed - 1 < 0 then 0 else c.speed - 1)
    case W => c.(speed := c.speed + 1)
    case E => c.(scale := if c.scale - 1 < 1 then 1 else c.scale - 1)
    case R => c.(scale := c.scale + 1)
    case T => c
    case _ => c
  }

  /** The events of one tick, in order; a quit event raises the flag and ends the handling of the tick's events. */
  function OnEvents(c: Controls, evs: seq<Event>): (r: Controls)
    ensures InRange(c) ==> InRange(r)
    ensures r.quit == (c.quit || Quit in evs)
    decreases |evs|
  {
    if evs == [] then c
    else
      match evs[0]
      case Quit => c.(quit := true)
      case KeyDown(key, _) => OnEvents(OnKey(c, key), evs[1..])
      case _ => OnEvents(c, evs[1..])
  }

  /** What each key does to speed and zoom, exactly. */
  lemma KeyEffects(c: Controls, key: Key)
    requires InRange(c)
    ensures key == Q ==> OnKey(c, key) == c.(speed := if c.speed == 0 then 0 else c.speed - 1)
    ensures key == W ==> OnKey(c, key) == c.(speed := c.speed + 1)
    ensures key == E ==> OnKey(c, key) == c.(scale := if c.scale == 1 then 1 else c.scale - 1)
    ensures key == R ==> OnKey(c, key) == c.(scale := c.scale + 1)
    ensures key != Q && key != W && key != E && key != R ==> OnKey(c, key) == c
  {
  }

  /** A quit event ends the tick's event handling: the events queued after it are dropped. */
  lemma QuitDropsRest(c: Controls, rest: seq<Event>)
    ensures OnEvents(c, [Quit] + rest) == c.(quit := true)
  {
  }

  // ---------------------------------------------------------------------
  // Frame selection

  /**
   * The frame shown at tick counter `count`: each frame is held for
   * speed + 1 counts, and the frames repeat cyclically.
   */
  function FrameIndex(count: nat, speed: nat, frames: nat): (i: nat)
    requires frames > 0
    ensures i < frames
  {
    (count / (speed + 1)) % frames
  }

  /** What one refresh draws: a frame of the list, or the gray fill when the list is empty. */
  datatype Display = Frame(index: nat) | GrayFill

  function Shown(frames: nat, count: nat, speed: nat): (d: Display)
    ensures d.GrayFill? <==> frames == 0
    ensures d.Frame? ==> d.index < frames && d.index == FrameIndex(count, speed, frames)
  {
    if frames > 0 then Frame(FrameIndex(count, speed, frames)) else GrayFill
  }

  /** Integer division is determined by quotient and remainder. */
  lemma Divide(a: nat, d: nat, q: nat, r: nat)
    requires d > 0 && r < d && a == q * d + r
    ensures a / d == q
  {
    var q', r' := a / d, a % d;
    assert a == q' * d + r';
    if q' < q {
      Distribute(q, q', d);
      AtLeastOnce(q - q', d);
    } else if q' > q {
      Distribute(q', q, d);
      AtLeastOnce(q' - q, d);
    }
  }

  lemma Distribute(x: int, y: int, d: int)
    ensures x * d - y * d == (x - y) * d
  {
  }

  lemma AtLeastOnce(t: int, d: int)
    requires t >= 1 && d > 0
    ensures t * d >= d
  {
  }

  /** Block `k` of speed + 1 consecutive counts all show frame `k mod frames`. */
  lemma FrameHeld(k: nat, j: nat, speed: nat, frames: nat)
    requires frames > 0 && j <= speed
    ensures FrameIndex(k * (speed + 1) + j, speed, frames) == k % frames
  {
    Divide(k * (speed + 1) + j, speed + 1, k, j);
  }

  /** From one count to the next the frame stays, or moves on to the next one cyclically. */
  lemma FrameAdvancesByOne(count: nat, speed: nat, frames: nat)
    requires frames > 0
    ensures var i, i' := FrameIndex(count, speed, frames), FrameIndex(count + 1, speed, frames);
      i' == i || i' == (i + 1) % frames
  {
    var d := speed + 1;
    var q, r := count / d, count % d;
    assert count == q * d + r;
    if r + 1 < d {
      Divide(count + 1, d, q, r + 1);
    } else {
      assert count + 1 == (q + 1) * d;
      Divide(count + 1, d, q + 1, 0);
      ModSucc(q, frames);
    }
  }

  lemma ModSucc(q: nat, n: nat)
    requires n > 0
    ensures (q + 1) % n == (q % n + 1) % n
  {
    var a, b := q / n, q % n;
    assert q == a * n + b;
    if b + 1 < n {
      DivideExact(q + 1, n, a, b + 1);
    } else {
      assert q + 1 == (a + 1) * n;
      DivideExact(q + 1, n, a + 1, 0);
    }
  }

  lemma DivideExact(x: nat, n: nat, a: nat, b: nat)
    requires n > 0 && b < n && x == a * n + b
    ensures x % n == b
  {
    Divide(x, n, a, b);
  }

  // ---------------------------------------------------------------------
  // Rebuilding the frame list

  /**
   * The frame list a directory listing yields: every file that loads, in
   * listing order, zoomed by `scale`; a file that fails to load is skipped.
   * `readable` gives the pixel size of each file that loads.
   */
  function Loaded(listing: seq<string>, readable: map<string, Size>, scale: int): (frames: seq<Size>)
    ensures |frames| <= |listing|
    decreases |listing|
  {
    if listing == [] then []
    else
      var last := listing[|listing| - 1];
      Loaded(listing[..|listing| - 1], readable, scale) +
        (if last in readable then [Scaled(readable[last], scale)] else [])
  }

  /** Loading two listings one after the other gives the two frame lists one after the other. */
  lemma {:induction false} LoadedConcat(a: seq<string>, b: seq<string>, readable: map<string, Size>, scale: int)
    ensures Loaded(a + b, readable, scale) == Loaded(a, readable, scale) + Loaded(b, readable, scale)
    decreases |b|
  {
    if b == [] {
      assert a + b == a;
    } else {
      var b' := b[..|b| - 1];
      assert (a + b)[..|a + b| - 1] == a + b';
      assert (a + b)[|a + b| - 1] == b[|b| - 1];
      LoadedConcat(a, b', readable, scale);
    }
  }

  /** A file that fails to load contributes nothing and does not affect the others. */
  lemma LoadedSkipsFailure(a: seq<string>, f: string, b: seq<string>, readable: map<string, Size>, scale: int)
    requires f !in readable
    ensures Loaded(a + [f] + b, readable, scale) == Loaded(a + b, readable, scale)
  {
    LoadedConcat(a + [f], b, readable, scale);
    LoadedConcat(a, [f], readable, scale);
    LoadedConcat(a, b, readable, scale);
    assert Loaded([f], readable, scale) == [];
  }

  /** A file that loads contributes exactly its zoomed frame, in its place. */
  lemma LoadedKeepsSuccess(a: seq<string>, f: string, b: seq<string>, readable: map<string, Size>, scale: int)
    requires f in readable
    ensures Loaded(a + [f] + b, readable, scale) ==
      Loaded(a, readable, scale) + [Scaled(readable[f], scale)] + Loaded(b, readable, scale)
  {
    LoadedConcat(a + [f], b, readable, scale);
    LoadedConcat(a, [f], readable, scale);
    assert Loaded([f], readable, scale) == [Scaled(readable[f], scale)];
  }

  /** When every file loads, frame `i` is file `i` zoomed. */
  lemma {:induction false} LoadedAllReadable(listing: seq<string>, readable: map<string, Size>, scale: int)
    requires forall i | 0 <= i < |listing| :: listing[i] in readable
    ensures |Loaded(listing, readable, scale)| == |listing|
    ensures forall i | 0 <= i < |listing| :: Loaded(listing, readable, scale)[i] == Scaled(readable[listing[i]], scale)
    decreases |listing|
  {
    if listing != [] {
      LoadedAllReadable(listing[..|listing| - 1], readable, scale);
    }
  }

  // ---------------------------------------------------------------------
  // The Animator class

  /** What the environment supplies for one pass of the main loop. */
  datatype TickInput = TickInput(events: seq<Event>, listing: seq<string>, readable: map<string, Size>)

  /** The previewer's whole state, as the main loop's specification sees it. */
  datatype Preview = Preview(controls: Controls, count: nat, frames: seq<Size>)

  /** One pass of the main loop: the events, then a refresh that reloads, counts and draws. */
  function PreviewTick(p: Preview, t: TickInput): (r: (Preview, Display))
    requires InRange(p.controls)
    ensures InRange(r.0.controls) && r.0.count == p.count + 1
    ensures r.1 == Shown(|r.0.frames|, r.0.count, r.0.controls.speed)
  {
    var c := OnEvents(p.controls, t.events);
    var frames := Loaded(t.listing, t.readable, c.scale);
    (Preview(c, p.count + 1, frames), Shown(|frames|, p.count + 1, c.speed))
  }

  /** The main loop over successive inputs, until the quit flag is up or the inputs run out. */
  function PreviewSession(p: Preview, ticks: seq<TickInput>): (r: (Preview, seq<Display>))
    requires InRange(p.controls)
    ensures InRange(r.0.controls)
    ensures r.0.count == p.count + |r.1| && |r.1| <= |ticks|
    ensures |r.1| < |ticks| ==> r.0.controls.quit
    decreases |ticks|
  {
    if p.controls.quit || ticks == [] then (p, [])
    else
      var (next, shown) := PreviewTick(p, ticks[0]);
      var (last, rest) := PreviewSession(next, ticks[1..]);
      (last, [shown] + rest)
  }

  /** The session from input `i` on is tick `i` followed by the session from input `i + 1` on. */
  lemma SessionFrom(p: Preview, ticks: seq<TickInput>, i: nat)
    requires InRange(p.controls) && !p.controls.quit && i < |ticks|
    ensures var (next, shown) := PreviewTick(p, ticks[i]);
      PreviewSession(p, ticks[i..]) ==
        (PreviewSession(next, ticks[i + 1..]).0, [shown] + PreviewSession(next, ticks[i + 1..]).1)
  {
    assert ticks[i..][0] == ticks[i] && ticks[i..][1..] == ticks[i + 1..];
  }

  class Animator {
    const imagesPath: string
    var speed: int
    var animCount: int
    var scale: int
    var images: seq<Size>
    var quit: bool

    predicate Valid()
      reads this
    {
      speed >= 0 && scale >= 1 && animCount >= 0
    }

    function ControlsOf(): Controls
      reads this
    {
      Controls(speed, scale, quit)
    }

    function State(): Preview
      reads this
      requires Valid()
    {
      Preview(ControlsOf(), animCount, images)
    }

    constructor (imagesPath: string)
      ensures Valid() && this.imagesPath == imagesPath
      ensures ControlsOf() == InitialControls && animCount == 0 && images == []
    {
      this.imagesPath := imagesPath;
      speed := 4;
      animCount := 0;
      scale := 1;
      images := [];
      quit := false;
    }

    /** The event loop of one pass: keys change speed and zoom, a quit event stops the handling. */
    method HandleEvents(evs: seq<Event>)
      requires Valid()
      modifies this`speed, this`scale, this`quit
      ensures Valid()
      ensures ControlsOf() == OnEvents(old(ControlsOf()), evs)
    {
      ghost var start := ControlsOf();
      var i := 0;
      while i < |evs|
        invariant 0 <= i <= |evs|
        invariant Valid()
        invariant OnEvents(ControlsOf(), evs[i..]) == OnEvents(start, evs)
      {
        assert evs[i..][0] == evs[i] && evs[i..][1..] == evs[i + 1..];
        match evs[i] {
          case Quit =>
            quit := true;
            break;
          case KeyDown(key, _) =>
            if key == Q {
              speed := speed - 1;
              if speed < 0 {
                speed := 0;
              }
            } else if key == W {
              speed := speed + 1;
            } else if key == E {
              scale := scale - 1;
              if scale < 1 {
                scale := 1;
              }
            } else if key == R {
              scale := scale + 1;
            }
          case _ =>
        }
        i := i + 1;
      }
    }

    /** Rebuilds the frame list from scratch out of the directory listing. */
    method ReloadFiles(listing: seq<string>, readable: map<string, Size>)
      modifies this`images
      ensures images == Loaded(listing, readable, scale)
    {
      images := [];
      var i := 0;
      while i < |listing|
        invariant 0 <= i <= |listing|
        invariant images == Loaded(listing[..i], readable, scale)
      {
        var filename := listing[i];
        assert listing[..i + 1][..i] == listing[..i];
        if filename in readable {
          var image := readable[filename];
          if scale > 1 {
            image := Size(image.w * scale, image.h * scale);
          }
          images := images + [image];
        }
        i := i + 1;
      }
      assert listing[..i] == listing;
    }

    /** Reloads the frames, advances the counter and picks what to draw. */
    method Refresh(listing: seq<string>, readable: map<string, Size>) returns (shown: Display)
      requires Valid()
      modifies this`images, this`animCount
      ensures Valid()
      ensures images == Loaded(listing, readable, scale)
      ensures animCount == old(animCount) + 1
      ensures shown == Shown(|images|, animCount, speed)
    {
      ReloadFiles(listing, readable);
      animCount := animCount + 1;
      if |images| > 0 {
        shown := Frame((animCount / (speed + 1)) % |images|);
      } else {
        shown := GrayFill;
      }
    }

    /** The main loop: handle the events and refresh, pass after pass, until quit. */
    method Run(ticks: seq<TickInput>) returns (shown: seq<Display>)
      requires Valid()
      modifies this`speed, this`scale, this`quit, this`images, this`animCount
      ensures Valid()
      ensures (State(), shown) == PreviewSession(old(State()), ticks)
    {
      ghost var start := State();
      shown := [];
      var i := 0;
      assert ticks[i..] == ticks;
      while !quit && i < |ticks|
        invariant 0 <= i <= |ticks|
        invariant Valid()
        invariant PreviewSession(State(), ticks[i..]).0 == PreviewSession(start, ticks).0
        invariant shown + PreviewSession(State(), ticks[i..]).1 == PreviewSession(start, ticks).1
      {
        ghost var before := State();
        HandleEvents(ticks[i].events);
        var d := Refresh(ticks[i].listing, ticks[i].readable);
        assert (State(), d) == PreviewTick(before, ticks[i]);
        SessionFrom(before, ticks, i);
        assert (shown + [d]) + PreviewSession(State(), ticks[i + 1..]).1 == shown + ([d] + PreviewSession(State(), ticks[i + 1..]).1);
        shown := shown + [d];
        i := i + 1;
      }
      assert quit || ticks[i..] == [];
      assert PreviewSession(State(), ticks[i..]) == (State(), []);
      assert shown + [] == shown;
    }
  }
}
