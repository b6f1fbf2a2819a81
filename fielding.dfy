/** Fielding positions for a right-handed batter and their mirror image for a left-handed
    one: every name keeps its height on the 1000-wide field drawing, moves to the other
    side, and has its text anchored at the other end. */
module Fielding {
  import opened Common
  import opened Domain

  /** The SVG text anchor of a position's name. */
  datatype Align = Start | Middle | End

  datatype FieldPosition = FieldPosition(x: int, y: int, align: Option<Align>)

  /** `mirrorAlign`: start and end swap; middle and no anchor stay. */
  function MirrorAlign(a: Option<Align>): (m: Option<Align>)
    ensures a == Some(Start) <==> m == Some(End)
    ensures a == Some(End) <==> m == Some(Start)
    ensures a !in {Some(Start), Some(End)} ==> m == a
  {
    match a
    case Some(Start) => Some(End)
    case Some(End) => Some(Start)
    case _ => a
  }

  /** Mirroring the anchor twice gives it back. */
  lemma MirrorAlignInvolution(a: Option<Align>)
    ensures MirrorAlign(MirrorAlign(a)) == a
  {
  }

  /** One position on the other side of the field: x becomes 1000 - x, y stays. */
  function MirrorPosition(p: FieldPosition): (q: FieldPosition)
    ensures q.y == p.y && q.x + p.x == 1000 && q.align == MirrorAlign(p.align)
    ensures 0 <= p.x <= 1000 ==> 0 <= q.x <= 1000
  {
    p.(x := 1000 - p.x, align := MirrorAlign(p.align))
  }

  /** Mirroring a position twice returns it. */
  lemma MirrorPositionInvolution(p: FieldPosition)
    ensures MirrorPosition(MirrorPosition(p)) == p
  {
    MirrorAlignInvolution(p.align);
  }

  /** `FIELD_POSITIONS_COORDS_LEFT`: every entry of the right-handed map mirrored, in the
      same order and under the same name. */
  function MirrorField(d: Dict<FieldPosition>): (m: Dict<FieldPosition>)
    ensures |m| == |d| && Keys(m) == Keys(d)
    ensures forall i :: 0 <= i < |d| ==> m[i] == Entry(d[i].key, MirrorPosition(d[i].value))
  {
    var m := seq(|d|, i requires 0 <= i < |d| => Entry(d[i].key, MirrorPosition(d[i].value)));
    assert Keys(m) == Keys(d);
    m
  }

  /** Mirroring the whole map twice gives back the right-handed map. */
  lemma MirrorFieldTwice(d: Dict<FieldPosition>)
    ensures MirrorField(MirrorField(d)) == d
  {
    var twice := MirrorField(MirrorField(d));
    forall i | 0 <= i < |d| ensures twice[i] == d[i] {
      MirrorPositionInvolution(d[i].value);
    }
  }

  /** Every position lies on the drawing horizontally. */
  ghost predicate OnDrawing(d: Dict<FieldPosition>) {
    forall i :: 0 <= i < |d| ==> 0 <= d[i].value.x <= 1000
  }

  /** Positions on the drawing stay on it when mirrored, and the mirror of a name is found
      under the same name. */
  lemma MirrorStaysOnDrawing(d: Dict<FieldPosition>, name: string)
    requires OnDrawing(d)
    ensures OnDrawing(MirrorField(d))
    ensures Get(d, name).Some? ==> Get(MirrorField(d), name) == Some(MirrorPosition(Get(d, name).value))
  {
    if Get(d, name).Some? {
      MirrorGet(d, name);
    }
  }

  lemma {:induction false} MirrorGet(d: Dict<FieldPosition>, name: string)
    ensures Get(MirrorField(d), name) == match Get(d, name)
                                          case Some(p) => Some(MirrorPosition(p))
                                          case None => None
  {
    if d != [] {
      MirrorGet(d[1..], name);
      assert MirrorField(d)[1..] == MirrorField(d[1..]);
    }
  }

  function At(x: int, y: int): FieldPosition {
    FieldPosition(x, y, None)
  }

  function Anchored(x: int, y: int, a: Align): FieldPosition {
    FieldPosition(x, y, Some(a))
  }

  /** `FIELD_POSITIONS_COORDS`: where each name sits for a right-handed batter. */
  const RightHanded: Dict<FieldPosition> := [
    Entry("Wicket-keeper", At(500, 440)),
    Entry("First slip", At(450, 435)),
    Entry("Second slip", At(405, 440)),
    Entry("Third slip", At(360, 445)),
    Entry("Fourth slip", At(315, 450)),
    Entry("Fly slip", At(260, 425)),
    Entry("Gully", At(360, 390)),
    Entry("Leg slip", At(550, 435)),
    Entry("Leg gully", At(640, 390)),
    Entry("Silly point", At(420, 340)),
    Entry("Point", At(250, 365)),
    Entry("Backward point", At(250, 410)),
    Entry("Deep backward point", Anchored(100, 470, End)),
    Entry("Cover point", At(280, 330)),
    Entry("Cover", At(320, 290)),
    Entry("Deep cover", Anchored(180, 250, End)),
    Entry("Extra cover", At(390, 250)),
    Entry("Deep extra cover", Anchored(280, 150, End)),
    Entry("Silly mid-off", At(460, 280)),
    Entry("Mid-off", At(430, 210)),
    Entry("Long off", At(450, 120)),
    Entry("Short third man", At(280, 490)),
    Entry("Third man", Anchored(120, 550, End)),
    Entry("Short leg", At(580, 340)),
    Entry("Backward short leg", At(610, 370)),
    Entry("Square leg", At(750, 365)),
    Entry("Backward square leg", At(750, 410)),
    Entry("Deep backward square leg", Anchored(900, 470, Start)),
    Entry("Mid-wicket", At(680, 290)),
    Entry("Deep mid-wicket", Anchored(820, 250, Start)),
    Entry("Silly mid-on", At(540, 280)),
    Entry("Mid-on", At(570, 210)),
    Entry("Long on", At(550, 120)),
    Entry("Short fine leg", At(720, 490)),
    Entry("Fine leg", Anchored(880, 550, Start)),
    Entry("Long stop", At(500, 560)),
    Entry("Deep fine leg", Anchored(750, 560, Start))
  ]

  /** `FIELD_POSITIONS_COORDS_LEFT`. */
  const LeftHanded: Dict<FieldPosition> := MirrorField(RightHanded)

  /** The left-handed map has the right-handed map's labels and lies on the drawing. */
  lemma LeftHandedOnDrawing()
    ensures Keys(LeftHanded) == Keys(RightHanded)
    ensures OnDrawing(LeftHanded)
  {
    RightHandedOnDrawing();
    MirrorStaysOnDrawing(RightHanded, "");
  }

  /** Every right-handed position lies within the drawing's 1000 units. */
  lemma RightHandedOnDrawing()
    ensures OnDrawing(RightHanded)
  {
    var d := RightHanded;
    assert forall i :: 0 <= i < |d| ==> 0 <= d[i].value.x <= 1000;
  }
}
