// Path description: an append-only list of drawing commands built with a
// fluent, by-value builder (nice-path-tessellator/src/lib.rs, `Path` and
// `PathCommands`).

module Paths {

  /** A 2D position. The source stores `[f32; 2]`; coordinates are only copied
      and compared here, so an ordered exact type stands in for `f32`. */
  datatype Point = Point(x: real, y: real)

  /** One drawing command. */
  datatype PathCommand =
    | MoveTo(to: Point)
    | LineTo(to: Point)
    | QuadraticCurveTo(ctrl: Point, to: Point)

  /** A path is its command list; every builder call returns the extended path. */
  datatype Path = Path(commands: seq<PathCommand>)
  {
    static function Start(): (p: Path)
      ensures p.commands == []
      ensures CurveCount(p.commands) == 0
    {
      Path([])
    }

    function MoveTo(to: Point): (p: Path)
      ensures |p.commands| == |commands| + 1
      ensures p.commands[..|commands|] == commands
      ensures p.commands[|commands|] == PathCommand.MoveTo(to)
      ensures CurveCount(p.commands) == CurveCount(commands)
    {
      var p := Path(commands + [PathCommand.MoveTo(to)]);
      assert p.commands[..|commands|] == commands;
      p
    }

    function LineTo(to: Point): (p: Path)
      ensures |p.commands| == |commands| + 1
      ensures p.commands[..|commands|] == commands
      ensures p.commands[|commands|] == PathCommand.LineTo(to)
      ensures CurveCount(p.commands) == CurveCount(commands)
    {
      var p := Path(commands + [PathCommand.LineTo(to)]);
      assert p.commands[..|commands|] == commands;
      p
    }

    function QuadraticCurveTo(ctrl: Point, to: Point): (p: Path)
      ensures |p.commands| == |commands| + 1
      ensures p.commands[..|commands|] == commands
      ensures p.commands[|commands|] == PathCommand.QuadraticCurveTo(ctrl, to)
      ensures CurveCount(p.commands) == CurveCount(commands) + 1
    {
      var p := Path(commands + [PathCommand.QuadraticCurveTo(ctrl, to)]);
      assert p.commands[..|commands|] == commands;
      p
    }
  }

  /** Number of quadratic curve commands in a command list. */
  function CurveCount(cmds: seq<PathCommand>): nat
  {
    if cmds == [] then 0
    else CurveCount(cmds[..|cmds| - 1]) + (if cmds[|cmds| - 1].QuadraticCurveTo? then 1 else 0)
  }

  /** A command list counts no curves exactly when none of its commands is a curve. */
  lemma {:induction false} CurveCountZero(cmds: seq<PathCommand>)
    ensures CurveCount(cmds) == 0 <==> forall i :: 0 <= i < |cmds| ==> !cmds[i].QuadraticCurveTo?
  {
    if cmds != [] {
      var init := cmds[..|cmds| - 1];
      CurveCountZero(init);
      assert forall i :: 0 <= i < |init| ==> init[i] == cmds[i];
    }
  }
}
