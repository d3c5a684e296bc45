/**
 * The 2D drawing context as a log of drawing commands. Each command carries
 * the diagram part it was drawn for, which is what lets the order of a
 * redraw be stated; colours, line widths and dash patterns are not kept.
 */
module Canvas {
  import opened Geometry

  /** The diagram parts, in the order a redraw paints them. */
  datatype Part =
    | ClearPart | WallPart | NichePart | ScreenPart | MountPart | PlayerPart | ReceptaclePart
    | WidthDimPart | HeightDimPart | FloorDimPart | DepthDimPart

  function Rank(p: Part): nat {
    match p
    case ClearPart => 0
    case WallPart => 1
    case NichePart => 2
    case ScreenPart => 3
    case MountPart => 4
    case PlayerPart => 5
    case ReceptaclePart => 6
    case WidthDimPart => 7
    case HeightDimPart => 8
    case FloorDimPart => 9
    case DepthDimPart => 10
  }

  /** A text label: a measured value followed by a unit suffix such as `"` or `" depth`. */
  datatype Label = Label(value: real, suffix: string)

  datatype Op =
    | Clear(r: Rect)                                   // clearRect
    | Fill(r: Rect)                                    // fillRect
    | Stroke(r: Rect)                                  // strokeRect
    | Path(subpaths: seq<seq<Point>>)                  // beginPath, moveTo/lineTo per subpath, stroke
    | Circles(centers: seq<Point>, radius: real)       // beginPath, one full arc per centre, fill, stroke
    | Text(caption: Label, at: Point, rotated: bool)   // fillText, rotated by -pi/2 about `at` when rotated

  datatype Cmd = Cmd(part: Part, op: Op)

  class Context {
    /** The part being drawn; set by each draw routine before it paints. */
    var layer: Part
    /** Everything drawn so far, oldest first. */
    var commands: seq<Cmd>

    constructor ()
      ensures layer == ClearPart && commands == []
    {
      layer := ClearPart;
      commands := [];
    }

    method ClearRect(r: Rect)
      modifies this`commands
      ensures commands == old(commands) + [Cmd(layer, Clear(r))]
    {
      commands := commands + [Cmd(layer, Clear(r))];
    }

    method FillRect(r: Rect)
      modifies this`commands
      ensures commands == old(commands) + [Cmd(layer, Fill(r))]
    {
      commands := commands + [Cmd(layer, Fill(r))];
    }

    method StrokeRect(r: Rect)
      modifies this`commands
      ensures commands == old(commands) + [Cmd(layer, Stroke(r))]
    {
      commands := commands + [Cmd(layer, Stroke(r))];
    }

    method StrokePath(subpaths: seq<seq<Point>>)
      modifies this`commands
      ensures commands == old(commands) + [Cmd(layer, Path(subpaths))]
    {
      commands := commands + [Cmd(layer, Path(subpaths))];
    }

    method FillCircles(centers: seq<Point>, radius: real)
      modifies this`commands
      ensures commands == old(commands) + [Cmd(layer, Circles(centers, radius))]
    {
      commands := commands + [Cmd(layer, Circles(centers, radius))];
    }

    method FillText(caption: Label, at: Point, rotated: bool)
      modifies this`commands
      ensures commands == old(commands) + [Cmd(layer, Text(caption, at, rotated))]
    {
      commands := commands + [Cmd(layer, Text(caption, at, rotated))];
    }
  }

  /** A command that erases the whole surface. */
  predicate Wipes(c: Cmd, s: Surface) {
    c.op.Clear? && c.op.r.x <= 0.0 && c.op.r.y <= 0.0
    && c.op.r.x + c.op.r.w >= s.width && c.op.r.y + c.op.r.h >= s.height
  }

  /** The commands whose paint is still on the surface: those since the last full wipe. */
  function Visible(cmds: seq<Cmd>, s: Surface): seq<Cmd> {
    if cmds == [] then []
    else
      var n := |cmds| - 1;
      if Wipes(cmds[n], s) then [cmds[n]] else Visible(cmds[..n], s) + [cmds[n]]
  }

  /** Drawing a sequence that starts with a wipe and wipes nowhere else shows exactly that sequence. */
  lemma {:induction false} VisibleAfterWipe(before: seq<Cmd>, drawn: seq<Cmd>, s: Surface)
    requires |drawn| > 0 && Wipes(drawn[0], s)
    requires forall i :: 0 < i < |drawn| ==> !Wipes(drawn[i], s)
    ensures Visible(before + drawn, s) == drawn
    decreases |drawn|
  {
    var all := before + drawn;
    var n := |all| - 1;
    if |drawn| == 1 {
      assert all[n] == drawn[0];
    } else {
      var m := |drawn| - 1;
      assert all[..n] == before + drawn[..m];
      assert all[n] == drawn[m];
      VisibleAfterWipe(before, drawn[..m], s);
      assert drawn[..m] + [drawn[m]] == drawn;
    }
  }

  /** Parts appear in non-decreasing rank. */
  ghost predicate Ordered(cmds: seq<Cmd>) {
    forall i, j :: 0 <= i < j < |cmds| ==> Rank(cmds[i].part) <= Rank(cmds[j].part)
  }

  /** Ranks never decrease, and all of them lie between lo and hi. */
  ghost predicate Band(cmds: seq<Cmd>, lo: nat, hi: nat) {
    cmds == [] || (lo <= Rank(cmds[0].part) <= hi && Band(cmds[1..], Rank(cmds[0].part), hi))
  }

  /** The parts that have at least one command. */
  ghost function PartsOf(cmds: seq<Cmd>): set<Part> {
    if cmds == [] then {} else {cmds[0].part} + PartsOf(cmds[1..])
  }

  /** Every command is for part p. */
  ghost predicate Uniform(cmds: seq<Cmd>, p: Part) {
    forall i :: 0 <= i < |cmds| ==> cmds[i].part == p
  }

  /** No command erases anything. */
  ghost predicate NoClear(cmds: seq<Cmd>) {
    forall i :: 0 <= i < |cmds| ==> !cmds[i].op.Clear?
  }

  /** PartsOf collects exactly the parts of the commands. */
  lemma {:induction false} PartsOfMembers(cmds: seq<Cmd>, p: Part)
    ensures p in PartsOf(cmds) <==> exists i :: 0 <= i < |cmds| && cmds[i].part == p
    decreases |cmds|
  {
    if cmds != [] {
      PartsOfMembers(cmds[1..], p);
      if exists i :: 0 <= i < |cmds| && cmds[i].part == p {
        var i :| 0 <= i < |cmds| && cmds[i].part == p;
        if i > 0 { assert cmds[1..][i - 1].part == p; }
      }
      if exists i :: 0 <= i < |cmds[1..]| && cmds[1..][i].part == p {
        var i :| 0 <= i < |cmds[1..]| && cmds[1..][i].part == p;
        assert cmds[i + 1].part == p;
      }
    }
  }

  /** A Band is Ordered, with every rank between lo and hi. */
  lemma {:induction false} BandOrdered(cmds: seq<Cmd>, lo: nat, hi: nat)
    requires Band(cmds, lo, hi)
    ensures Ordered(cmds)
    ensures forall i :: 0 <= i < |cmds| ==> lo <= Rank(cmds[i].part) <= hi
    decreases |cmds|
  {
    if cmds != [] {
      var tail := cmds[1..];
      BandOrdered(tail, Rank(cmds[0].part), hi);
      forall i | 0 < i < |cmds| ensures Rank(cmds[0].part) <= Rank(cmds[i].part) <= hi {
        assert cmds[i] == tail[i - 1];
      }
      forall i, j | 0 <= i < j < |cmds| ensures Rank(cmds[i].part) <= Rank(cmds[j].part) {
        if i > 0 {
          assert cmds[i] == tail[i - 1] && cmds[j] == tail[j - 1];
        }
      }
    }
  }

  lemma {:induction false} BandWiden(cmds: seq<Cmd>, lo: nat, hi: nat, lo': nat, hi': nat)
    requires Band(cmds, lo, hi) && lo' <= lo && hi <= hi'
    ensures Band(cmds, lo', hi')
    decreases |cmds|
  {
    if cmds != [] {
      BandWiden(cmds[1..], Rank(cmds[0].part), hi, Rank(cmds[0].part), hi');
    }
  }

  /** A run of commands for one part. */
  lemma {:induction false} UniformSegment(cmds: seq<Cmd>, p: Part)
    requires Uniform(cmds, p)
    ensures Band(cmds, Rank(p), Rank(p))
    ensures PartsOf(cmds) == if cmds == [] then {} else {p}
    decreases |cmds|
  {
    if cmds != [] {
      UniformSegment(cmds[1..], p);
    }
  }

  /** Joining two bands: still a band, and the parts are those of both. */
  lemma {:induction false} Join(a: seq<Cmd>, b: seq<Cmd>, lo: nat, mid: nat, hi: nat)
    requires lo <= mid <= hi && Band(a, lo, mid) && Band(b, mid, hi)
    ensures Band(a + b, lo, hi)
    ensures PartsOf(a + b) == PartsOf(a) + PartsOf(b)
    decreases |a|
  {
    if a == [] {
      assert a + b == b;
    } else {
      assert (a + b)[0] == a[0];
      assert (a + b)[1..] == a[1..] + b;
      Join(a[1..], b, Rank(a[0].part), mid, hi);
    }
  }

  lemma NoClearConcat(a: seq<Cmd>, b: seq<Cmd>)
    requires NoClear(a) && NoClear(b)
    ensures NoClear(a + b)
  {
    var ab := a + b;
    forall i | 0 <= i < |ab| ensures !ab[i].op.Clear? {
      if i < |a| { assert ab[i] == a[i]; } else { assert ab[i] == b[i - |a|]; }
    }
  }
}
