/**
 * One generation: the board outline on layer "BOARD" followed by one slot
 * per hole on layer "HOLES", handed unserialised to the drawing emitter.
 */
module Layout {
  import opened Polylines
  import opened Capsules
  import opened Outline
  import opened Placement

  /** A named group of polylines. */
  datatype Layer = Layer(name: string, polylines: seq<Polyline>)

  /** What the emitter receives, layers in the order they were added. */
  datatype Drawing = Drawing(layers: seq<Layer>)

  /** The slot around each emitted centre reads back as that same centre. */
  lemma ExportMatchesPreview(p: Params)
    requires PositiveSpacing(p)
    ensures var cs := HoleCapsules(p, HoleCentres(p));
            && |cs| == |HoleCentres(p)|
            && forall i :: 0 <= i < |cs| ==> |cs[i].vertices| == 4 && CapsuleCentre(cs[i]) == HoleCentres(p)[i]
  {
    var hs := HoleCentres(p);
    forall i | 0 <= i < |hs|
      ensures CapsuleCentre(HoleCapsules(p, hs)[i]) == hs[i]
    {
      CapsuleCentreRoundTrip(hs[i].x, hs[i].y, p.holeWidth, p.holeHeight, p.holeRadius);
    }
  }

  /**
   * The loop guards keep every slot clear of the board's left and bottom
   * edges (the top and right edges are kept clear only by sensible offsets,
   * which nothing checks).
   */
  lemma SlotsClearLeftAndBottom(p: Params)
    requires PositiveSpacing(p) && p.holeWidth > 0.0 && p.holeHeight > 0.0 && p.holeRadius >= 0.0
    ensures var cs := HoleCapsules(p, HoleCentres(p));
            forall i, j :: 0 <= i < |cs| && 0 <= j < |cs[i].vertices| ==>
              cs[i].vertices[j].x >= 0.0 && cs[i].vertices[j].y >= 0.0
  {
    var hs := HoleCentres(p);
    var cs := HoleCapsules(p, hs);
    HolesOnBoard(p);
    forall i, j | 0 <= i < |cs| && 0 <= j < |cs[i].vertices|
      ensures cs[i].vertices[j].x >= 0.0 && cs[i].vertices[j].y >= 0.0
    {
      CapsuleWithinSlot(hs[i].x, hs[i].y, p.holeWidth, p.holeHeight, p.holeRadius);
    }
  }

  /**
   * Builds the drawing: the outline (corner radius as given) on "BOARD",
   * then the slots in placement order on "HOLES"; every slot is centred on
   * the corresponding centre of the preview's walk.
   */
  method GenerateLayout(p: Params) returns (d: Drawing)
    requires PositiveSpacing(p)
    ensures |d.layers| == 2
    ensures d.layers[0] == Layer("BOARD", [BoardOutline(p.boardWidth, p.boardHeight, p.cornerRadius)])
    ensures d.layers[1].name == "HOLES"
    ensures |d.layers[1].polylines| == |HoleCentres(p)|
    ensures forall i :: 0 <= i < |d.layers[1].polylines| ==>
              d.layers[1].polylines[i].closed && |d.layers[1].polylines[i].vertices| == 4 &&
              CapsuleCentre(d.layers[1].polylines[i]) == HoleCentres(p)[i]
    ensures d.layers[1].polylines == HoleCapsules(p, HoleCentres(p))
  {
    var outline := BoardOutline(p.boardWidth, p.boardHeight, p.cornerRadius);
    var capsules := ExportHoles(p);
    ExportMatchesPreview(p);
    d := Drawing([Layer("BOARD", [outline]), Layer("HOLES", capsules)]);
  }
}
