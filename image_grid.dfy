/** The photo grid: each image's layout span becomes grid classes, hovering an
    image tilts it in a direction chosen once per image, and the hovered
    image alone shows its overlay. */
module ImageGrid {

  import opened Wrappers
  import opened Numbers

  /** The layout variations an image may ask for. */
  datatype Span = Normal | Wide | Tall | Large

  /** getSpanClasses: the responsive grid classes for an image's span, empty
      for a normal or missing span. */
  function SpanClasses(span: Option<Span>): (r: string)
  {
    match span
    case Some(Wide) => "md:col-span-2"
    case Some(Tall) => "md:row-span-2"
    case Some(Large) => "md:col-span-2 md:row-span-2"
    case _ => ""
  }

  /** The cells an image covers on a medium screen: columns, then rows. */
  function Footprint(span: Option<Span>): (r: (nat, nat))
    ensures 1 <= r.0 <= 2 && 1 <= r.1 <= 2
  {
    match span
    case Some(Wide) => (2, 1)
    case Some(Tall) => (1, 2)
    case Some(Large) => (2, 2)
    case _ => (1, 1)
  }

  /** The class list that asks for a footprint: one class per doubled side,
      columns first, separated by a space. */
  function ClassesFor(cols: nat, rows: nat): string {
    var parts := (if cols == 2 then ["md:col-span-2"] else []) + (if rows == 2 then ["md:row-span-2"] else []);
    if |parts| == 0 then "" else if |parts| == 1 then parts[0] else parts[0] + " " + parts[1]
  }

  /** The class string asks for exactly the cells the span covers. */
  lemma SpanClassesMatchFootprint(span: Option<Span>)
    ensures SpanClasses(span) == ClassesFor(Footprint(span).0, Footprint(span).1)
  {
    var f := Footprint(span);
    match span
    case Some(Large) =>
      assert (["md:col-span-2"] + ["md:row-span-2"])[1] == "md:row-span-2";
    case _ =>
  }

  /** Only a span that covers a single cell has no classes. */
  lemma NoClassesIffSingleCell(span: Option<Span>)
    ensures SpanClasses(span) == "" <==> Footprint(span) == (1, 1)
  {
  }

  // ---------------------------------------------------------------------------
  // Hover directions

  /** A hover tilt: offsets in pixels and a rotation in degrees. */
  datatype Direction = Direction(x: int, y: int, rotate: int)

  /** The eight tilts a hovered image may take. */
  const Directions: seq<Direction> := [
    Direction(-15, 0, -2),
    Direction(15, 0, 2),
    Direction(0, -15, 1),
    Direction(0, 15, -1),
    Direction(-10, -10, -3),
    Direction(10, -10, 3),
    Direction(-10, 10, 2),
    Direction(10, 10, -2)
  ]

  /** A tilt stays within 15 pixels each way and 3 degrees. */
  predicate Bounded(d: Direction) {
    Abs(d.x) <= 15 && Abs(d.y) <= 15 && Abs(d.rotate) <= 3
  }

  /** The tilt drawn by `Math.floor(Math.random() * 8)`; the draw is the
      parameter `choice`. */
  function Pick(choice: nat): (d: Direction)
    requires choice < |Directions|
    ensures d in Directions && Bounded(d)
    ensures d.x != 0 || d.y != 0
  {
    Directions[choice]
  }

  // ---------------------------------------------------------------------------
  // Element transforms

  /** The values the last tween started on an image's box moves it to. Scales
      are percents. */
  datatype Transform = Transform(x: int, y: int, rotation: int, scale: int, zIndex: int, imageScale: int)

  /** Where a hover moves an image: tilted, enlarged and raised. */
  function Hovered(d: Direction): Transform {
    Transform(d.x, d.y, d.rotate, 105, 50, 110)
  }

  /** Where leaving an image returns it, whatever tilt it had. */
  const Rest: Transform := Transform(0, 0, 0, 100, 1, 100)

  /** The images whose overlay is drawn opaque. */
  function Overlays(hovered: Option<string>, ids: set<string>): (r: set<string>)
    ensures forall id :: id in r <==> id in ids && hovered == Some(id)
    ensures |r| <= 1
  {
    if hovered.Some? && hovered.value in ids then {hovered.value} else {}
  }

  class Grid {
    /** The image under the pointer, if any. */
    var hoveredId: Option<string>
    /** The tilt remembered for each image hovered so far. */
    var directions: map<string, Direction>
    /** The ids whose element ref is set. */
    var mounted: set<string>
    /** The target of the last tween started on each image's box. */
    var transforms: map<string, Transform>

    ghost predicate Valid()
      reads this
    {
      && (forall id :: id in directions ==> directions[id] in Directions)
      && (forall id :: id in transforms ==>
            id in mounted && (transforms[id] == Rest || (id in directions && transforms[id] == Hovered(directions[id]))))
    }

    constructor (ids: set<string>)
      ensures Valid()
      ensures hoveredId == None && directions == map[] && mounted == ids && transforms == map[]
    {
      hoveredId := None;
      directions := map[];
      mounted := ids;
      transforms := map[];
    }

    /** The pointer enters image `id`: it becomes the hovered image; if its
        element is mounted, its tilt is drawn unless it has one already, and
        the box tweens to that tilt. */
    method MouseEnter(id: string, choice: nat)
      requires Valid() && choice < |Directions|
      modifies this`hoveredId, this`directions, this`transforms
      ensures Valid()
      ensures hoveredId == Some(id)
      ensures id !in mounted ==> directions == old(directions) && transforms == old(transforms)
      ensures id in old(directions) ==> directions == old(directions)
      ensures id in mounted && id !in old(directions) ==> directions == old(directions)[id := Pick(choice)]
      ensures id in mounted ==> transforms == old(transforms)[id := Hovered(directions[id])]
    {
      hoveredId := Some(id);
      if id !in mounted {
        return;
      }
      if id !in directions {
        directions := directions[id := Pick(choice)];
      }
      var d := directions[id];
      transforms := transforms[id := Hovered(d)];
    }

    /** The pointer leaves image `id`: nothing is hovered, and a mounted box
        tweens back to rest. */
    method MouseLeave(id: string)
      requires Valid()
      modifies this`hoveredId, this`transforms
      ensures Valid()
      ensures hoveredId == None
      ensures id !in mounted ==> transforms == old(transforms)
      ensures id in mounted ==> transforms == old(transforms)[id := Rest]
    {
      hoveredId := None;
      if id !in mounted {
        return;
      }
      transforms := transforms[id := Rest];
    }

    /** Every remembered tilt is one of the eight, and so within bounds. */
    lemma RememberedBounded(id: string)
      requires Valid() && id in directions
      ensures Bounded(directions[id])
    {
      var i :| 0 <= i < |Directions| && Directions[i] == directions[id];
      assert Pick(i) == directions[id];
    }
  }

  /** A tilt once drawn is kept: entering again with any other draw, after
      leaving, moves the image to the same tilt. */
  method HoverTwice(id: string, first: nat, second: nat) returns (again: Transform, rest: Transform)
    requires first < |Directions| && second < |Directions|
    ensures again == Hovered(Pick(first)) && rest == Rest
  {
    var g := new Grid({id});
    g.MouseEnter(id, first);
    g.MouseLeave(id);
    g.MouseEnter(id, second);
    again := g.transforms[id];
    g.MouseLeave(id);
    rest := g.transforms[id];
  }

  /** Entering an image whose element is missing still marks it hovered, but
      draws no tilt and starts no tween. */
  method HoverMissing(id: string, other: string, choice: nat) returns (hovered: Option<string>, remembered: bool, moved: bool)
    requires id != other && choice < |Directions|
    ensures hovered == Some(id) && !remembered && !moved
  {
    var g := new Grid({other});
    g.MouseEnter(id, choice);
    hovered, remembered, moved := g.hoveredId, id in g.directions, id in g.transforms;
  }

  /** Moving from one image to the next (leave, then enter) leaves only the
      second image's overlay shown. */
  method HoverAcross(a: string, b: string, i: nat, j: nat) returns (shown: set<string>)
    requires a != b && i < |Directions| && j < |Directions|
    ensures shown == {b}
  {
    var g := new Grid({a, b});
    g.MouseEnter(a, i);
    g.MouseLeave(a);
    g.MouseEnter(b, j);
    shown := Overlays(g.hoveredId, g.mounted);
  }
}
