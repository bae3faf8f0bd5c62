/** The scene side of trafficlight.cpp: looking a light up by name, placing
    each drawing instruction (with the "next to the previous one" and
    "centred" shorthands for the column), and drawing one instruction's
    light at a given time. */
module Placement {
  import opened CInt
  import opened Signal
  import opened Wrappers
  import Resolver
  import Decoder
  import Warnings

  // ---------------------------------------------------------------------
  // by_name

  /** The lowest index holding `name`, if any. */
  function FirstIndex(names: seq<string>, name: string): Option<nat> {
    if names == [] then None
    else
      match FirstIndex(names[..|names| - 1], name)
      case Some(i) => Some(i)
      case None => if names[|names| - 1] == name then Some(|names| - 1) else None
  }

  /** `FirstIndex` finds `name` exactly when it is present, and then at its
      first occurrence. */
  lemma {:induction false} FirstIndexFinds(names: seq<string>, name: string)
    ensures FirstIndex(names, name).Some? <==> name in names
    ensures FirstIndex(names, name).Some? ==>
              FirstIndex(names, name).value < |names|
              && names[FirstIndex(names, name).value] == name
              && forall j :: 0 <= j < FirstIndex(names, name).value ==> names[j] != name
  {
    if names != [] {
      var pre := names[..|names| - 1];
      FirstIndexFinds(pre, name);
      assert names == pre + [names[|names| - 1]];
    }
  }

  /** `by_name`: a scan from the front; `None` stands for the error message
      and `exit(1)` when no light has that name. */
  method ByName(names: seq<string>, name: string) returns (r: Option<nat>)
    ensures r == FirstIndex(names, name)
    ensures r.Some? <==> name in names
    ensures r.Some? ==> r.value < |names| && names[r.value] == name
                        && forall j :: 0 <= j < r.value ==> names[j] != name
  {
    FirstIndexFinds(names, name);
    var i := 0;
    while i < |names|
      invariant 0 <= i <= |names|
      invariant FirstIndex(names[..i], name) == None
    {
      assert names[..i + 1][..i] == names[..i];
      if names[i] == name {
        FirstIndexPrefix(names, name, i + 1);
        return Some(i);
      }
      i := i + 1;
    }
    assert names[..i] == names;
    return None;
  }

  /** Once found in a prefix, the first index is found in the whole. */
  lemma {:induction false} FirstIndexPrefix(names: seq<string>, name: string, k: nat)
    requires k <= |names| && FirstIndex(names[..k], name).Some?
    ensures FirstIndex(names, name) == FirstIndex(names[..k], name)
    decreases |names| - k
  {
    if k < |names| {
      assert names[..k + 1][..k] == names[..k];
      FirstIndexPrefix(names, name, k + 1);
    } else {
      assert names[..k] == names;
    }
  }

  // ---------------------------------------------------------------------
  // load_draw_instructions: placement

  /** One instruction line as read: light name, column, top, size, offset. */
  datatype Line = Line(name: string, x: int, y: int, size: int, offset: int)

  datatype Instruction = Instruction(lightId: nat, x: int, y: int, size: int, offset: int)

  /** The column of an instruction: -1 means right of the previous light
      (two of its sizes on), -2 means centred in the window. */
  function PlaceX(x: int, lastX: int, lastSize: int, windowW: int, size: int): int {
    if x == -1 then lastX + lastSize * 2
    else if x == -2 then CDiv(windowW, 2) - CDiv(size, 2)
    else x
  }

  /** The instructions the loop builds, or the first name no light has. */
  function Load(lines: seq<Line>, names: seq<string>, windowW: int): Result<seq<Instruction>, string> {
    if lines == [] then Ok([])
    else
      match Load(lines[..|lines| - 1], names, windowW)
      case Err(e) => Err(e)
      case Ok(done) =>
        var line := lines[|lines| - 1];
        var lastX, lastSize := if done == [] then 0 else done[|done| - 1].x, if done == [] then 0 else done[|done| - 1].size;
        match FirstIndex(names, line.name)
        case None => Err(line.name)
        case Some(id) =>
          Ok(done + [Instruction(id, PlaceX(line.x, lastX, lastSize, windowW, line.size), line.y, line.size, line.offset)])
  }

  /** The placement loop of `load_draw_instructions` over the lines that are
      neither comments nor blank.  The first line may not use -1: the
      previous column is not initialised then. */
  method LoadDrawInstructions(lines: seq<Line>, names: seq<string>, windowW: int)
    returns (r: Result<seq<Instruction>, string>)
    requires |lines| > 0 ==> lines[0].x != -1
    ensures r == Load(lines, names, windowW)
  {
    var instrs: seq<Instruction> := [];
    var lastX, lastSize := 0, 0;
    var i := 0;
    while i < |lines|
      invariant 0 <= i <= |lines|
      invariant Load(lines[..i], names, windowW) == Ok(instrs)
      invariant lastX == (if instrs == [] then 0 else instrs[|instrs| - 1].x)
      invariant lastSize == (if instrs == [] then 0 else instrs[|instrs| - 1].size)
    {
      assert lines[..i + 1][..i] == lines[..i];
      var line := lines[i];
      var x := line.x;
      if x == -1 {
        x := lastX + lastSize * 2;
      } else if x == -2 {
        x := CDiv(windowW, 2) - CDiv(line.size, 2);
      }
      var id := ByName(names, line.name);
      if id.None? {
        LoadErrSticks(lines, names, windowW, i + 1);
        return Err(line.name);
      }
      instrs := instrs + [Instruction(id.value, x, line.y, line.size, line.offset)];
      i := i + 1;
      lastX, lastSize := x, line.size;
    }
    assert lines[..i] == lines;
    return Ok(instrs);
  }

  /** A failed prefix fails the whole load with the same name. */
  lemma {:induction false} LoadErrSticks(lines: seq<Line>, names: seq<string>, windowW: int, k: nat)
    requires k <= |lines| && Load(lines[..k], names, windowW).Err?
    ensures Load(lines, names, windowW) == Load(lines[..k], names, windowW)
    decreases |lines| - k
  {
    if k < |lines| {
      assert lines[..k + 1][..k] == lines[..k];
      LoadErrSticks(lines, names, windowW, k + 1);
    } else {
      assert lines[..k] == lines;
    }
  }

  /** Loading fails exactly when some line names no light, and then with the
      name of the first such line. */
  lemma {:induction false} LoadFails(lines: seq<Line>, names: seq<string>, windowW: int)
    ensures Load(lines, names, windowW).Ok? <==> forall k :: 0 <= k < |lines| ==> lines[k].name in names
    ensures Load(lines, names, windowW).Err? ==>
              exists k :: 0 <= k < |lines| && lines[k].name !in names
                          && Load(lines, names, windowW).error == lines[k].name
                          && forall j :: 0 <= j < k ==> lines[j].name in names
  {
    if lines != [] {
      var pre, line := lines[..|lines| - 1], lines[|lines| - 1];
      assert forall j :: 0 <= j < |pre| ==> lines[j] == pre[j];
      LoadFails(pre, names, windowW);
      FirstIndexFinds(names, line.name);
      if Load(pre, names, windowW).Err? {
        var k :| 0 <= k < |pre| && pre[k].name !in names && Load(pre, names, windowW).error == pre[k].name
                 && forall j :: 0 <= j < k ==> pre[j].name in names;
        assert lines[k] == pre[k];
      } else if FirstIndex(names, line.name).None? {
        assert lines[|pre|].name !in names;
      }
    }
  }

  /** A successful load has one instruction per line, keeping its top, size
      and offset, naming the first light with its name, and placing its
      column: as given, centred in the window for -2, and for -1 two of the
      previous light's sizes right of the previous light. */
  lemma {:induction false} LoadPlaces(lines: seq<Line>, names: seq<string>, windowW: int)
    requires Load(lines, names, windowW).Ok?
    ensures var instrs := Load(lines, names, windowW).value;
              |instrs| == |lines|
              && (forall k :: 0 <= k < |lines| ==>
                    Some(instrs[k].lightId) == FirstIndex(names, lines[k].name)
                    && instrs[k].y == lines[k].y && instrs[k].size == lines[k].size
                    && instrs[k].offset == lines[k].offset)
              && (forall k :: 0 <= k < |lines| && lines[k].x != -1 && lines[k].x != -2 ==> instrs[k].x == lines[k].x)
              && (forall k :: 0 <= k < |lines| && lines[k].x == -2 ==>
                    instrs[k].x == CDiv(windowW, 2) - CDiv(lines[k].size, 2))
              && (forall k :: 0 < k < |lines| && lines[k].x == -1 ==>
                    instrs[k].x == instrs[k - 1].x + 2 * instrs[k - 1].size)
  {
    if lines != [] {
      var pre, line := lines[..|lines| - 1], lines[|lines| - 1];
      LoadPlaces(pre, names, windowW);
      var done := Load(pre, names, windowW).value;
      var instrs := Load(lines, names, windowW).value;
      assert instrs == done + [instrs[|done|]];
      assert forall k :: 0 <= k < |pre| ==> instrs[k] == done[k] && lines[k] == pre[k];
    }
  }

  // ---------------------------------------------------------------------
  // draw_light_spec

  /** One instruction's light at `ms` milliseconds: the stage comes from the
      whole seconds, the flashing from the milliseconds.  The source indexes
      the stage list with the resolved id unchecked, so a time that falls in
      no stage is excluded here. */
  method DrawLightSpec(originX: int, size: int, spec: Spec, offset: int, ms: int, log: Warnings.WarningLog)
    returns (margins: seq<Decoder.MarginBox>, lamps: seq<Decoder.LampRecord>, printed: seq<char>)
    requires spec.loopTime != 0
    requires Resolver.StageIdAt(spec, offset, CDiv(ms, 1000)) >= 0
    requires |Decoder.Positions(spec.layout)|
             <= |spec.stages[Resolver.StageIdAt(spec, offset, CDiv(ms, 1000))].state| + 1
    requires log.Valid() && Decoder.UnknownInTable(spec.layout)
    modifies log.shown
    ensures var id := Resolver.StageIdAt(spec, offset, CDiv(ms, 1000));
            Resolver.Active(spec.stages, id, Resolver.LoopPosition(spec.loopTime, offset, CDiv(ms, 1000)))
            && lamps == Decoder.LampPass(spec.layout, Decoder.Env(originX, size, spec.stages[id].state, ms))
    ensures margins == Decoder.Margins(spec.layout, originX, size, Decoder.DotAnchorAsWritten)
    ensures Warnings.InTable(Decoder.UnknownChars(spec.layout))
    ensures printed == Warnings.Printed(old(log.shown[..]), Decoder.UnknownChars(spec.layout))
    ensures log.shown[..] == Warnings.ShownAfter(old(log.shown[..]), Decoder.UnknownChars(spec.layout))
  {
    var id := Resolver.StageId(spec, offset, CDiv(ms, 1000));
    margins, lamps, printed := Decoder.Light(originX, size, spec, id, ms, log);
  }
}
