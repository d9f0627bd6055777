/** The three selectable macro-regions and their rectangular hit areas. */
module MapRegions {
  import opened JsString
  import opened MapProjection

  /** A region: its identifier, its SVG outline and its rectangle in logical units. */
  datatype Region = Region(id: string, path: string, x: nat, y: nat, w: nat, h: nat)

  /** The `regions` table. */
  const Regions: seq<Region> := [
    Region("Americas", "M50,50 L250,50 L250,350 L50,350 Z", 50, 50, 200, 300),
    Region("EMEA", "M300,50 L550,50 L550,350 L300,350 Z", 300, 50, 250, 300),
    Region("APAC", "M570,50 L780,50 L780,350 L570,350 Z", 570, 50, 210, 300)
  ]

  /** One path command: `cmd` followed by the point `px,py`. */
  function Segment(cmd: string, px: nat, py: nat): string {
    cmd + NatToString(px) + "," + NatToString(py)
  }

  /** The closed outline of the rectangle with corner (x, y), width w and height h,
      traced clockwise from the top-left corner. */
  function RectPath(x: nat, y: nat, w: nat, h: nat): string {
    Segment("M", x, y) + Segment(" L", x + w, y) + Segment(" L", x + w, y + h)
    + Segment(" L", x, y + h) + " Z"
  }

  /** The decimal renderings the three outlines use. */
  lemma OutlineNumbers()
    ensures NatToString(50) == "50" && NatToString(250) == "250"
    ensures NatToString(300) == "300" && NatToString(350) == "350"
    ensures NatToString(550) == "550" && NatToString(570) == "570"
    ensures NatToString(780) == "780"
  {
    assert NatToString(5) == "5" && NatToString(25) == "25" && NatToString(30) == "30";
    assert NatToString(35) == "35" && NatToString(55) == "55" && NatToString(57) == "57";
    assert NatToString(78) == "78";
  }

  /** The Americas outline traces its rectangle. */
  lemma AmericasOutline()
    ensures RectPath(50, 50, 200, 300) == "M50,50 L250,50 L250,350 L50,350 Z"
  {
    OutlineNumbers();
    AmericasCommands();
    AmericasJoined();
  }

  /** The commands of the Americas outline, spelled out. */
  lemma AmericasCommands()
    ensures "M" + "50" + "," + "50" == "M50,50"
    ensures " L" + "250" + "," + "50" == " L250,50"
    ensures " L" + "250" + "," + "350" == " L250,350"
    ensures " L" + "50" + "," + "350" == " L50,350"
  {
  }

  /** The Americas outline is its commands joined, then closed. */
  lemma AmericasJoined()
    ensures "M50,50" + " L250,50" + " L250,350" + " L50,350" + " Z"
         == "M50,50 L250,50 L250,350 L50,350 Z"
  {
  }

  /** The EMEA outline traces its rectangle. */
  lemma EmeaOutline()
    ensures RectPath(300, 50, 250, 300) == "M300,50 L550,50 L550,350 L300,350 Z"
  {
    OutlineNumbers();
    EmeaCommands();
    EmeaJoined();
  }

  /** The commands of the EMEA outline, spelled out. */
  lemma EmeaCommands()
    ensures "M" + "300" + "," + "50" == "M300,50"
    ensures " L" + "550" + "," + "50" == " L550,50"
    ensures " L" + "550" + "," + "350" == " L550,350"
    ensures " L" + "300" + "," + "350" == " L300,350"
  {
  }

  /** The EMEA outline is its commands joined, then closed. */
  lemma EmeaJoined()
    ensures "M300,50" + " L550,50" + " L550,350" + " L300,350" + " Z"
         == "M300,50 L550,50 L550,350 L300,350 Z"
  {
  }

  /** The APAC outline traces its rectangle. */
  lemma ApacOutline()
    ensures RectPath(570, 50, 210, 300) == "M570,50 L780,50 L780,350 L570,350 Z"
  {
    OutlineNumbers();
    ApacCommands();
    ApacJoined();
  }

  /** The commands of the APAC outline, spelled out. */
  lemma ApacCommands()
    ensures "M" + "570" + "," + "50" == "M570,50"
    ensures " L" + "780" + "," + "50" == " L780,50"
    ensures " L" + "780" + "," + "350" == " L780,350"
    ensures " L" + "570" + "," + "350" == " L570,350"
  {
  }

  /** The APAC outline is its commands joined, then closed. */
  lemma ApacJoined()
    ensures "M570,50" + " L780,50" + " L780,350" + " L570,350" + " Z"
         == "M570,50 L780,50 L780,350 L570,350 Z"
  {
  }

  /** Every outline traces exactly its own rectangle. */
  lemma PathsTraceRectangles()
    ensures forall i :: 0 <= i < |Regions| ==>
              Regions[i].path == RectPath(Regions[i].x, Regions[i].y, Regions[i].w, Regions[i].h)
  {
    forall i | 0 <= i < |Regions|
      ensures Regions[i].path == RectPath(Regions[i].x, Regions[i].y, Regions[i].w, Regions[i].h)
    {
      if i == 0 {
        AmericasOutline();
      } else if i == 1 {
        EmeaOutline();
      } else {
        ApacOutline();
      }
    }
  }

  /** Whether the closed rectangle of `r` holds logical point `p`. */
  predicate Contains(r: Region, p: Point) {
    && (r.x as real) <= p.x <= ((r.x + r.w) as real)
    && (r.y as real) <= p.y <= ((r.y + r.h) as real)
  }

  /** No logical point lies in two regions. */
  lemma RegionsDisjoint(p: Point, i: nat, j: nat)
    requires i < |Regions| && j < |Regions|
    requires Contains(Regions[i], p) && Contains(Regions[j], p)
    ensures i == j
  {
  }

  /** The identifiers tell the regions apart. */
  lemma RegionIdsDistinct(i: nat, j: nat)
    requires i < |Regions| && j < |Regions| && Regions[i].id == Regions[j].id
    ensures i == j
  {
  }

  /** Every region lies inside the logical canvas. */
  lemma RegionsOnCanvas(i: nat)
    requires i < |Regions|
    ensures ((Regions[i].x + Regions[i].w) as real) <= CanvasWidth
    ensures ((Regions[i].y + Regions[i].h) as real) <= CanvasHeight
  {
  }
}
