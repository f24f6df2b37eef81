/**
 * The table-and-chair arrangement of Assets/Objects/TableLayout.cs: a table
 * is moved to a position and the chairs of its set are placed around it by
 * index, a four-chair "long" set two to a side and staggered in z, a
 * two-chair "small" set one to a side, every chair turned to face the table.
 *
 * A transform is a position and a yaw (`Quaternion.Euler(0, yaw, 0)`); an
 * unassigned object is `None`. The width of a table's renderer bounds is a
 * parameter. C# `float` is modelled by `real`.
 */
module Layout {
  import opened Wrappers

  datatype Vec3 = Vec3(x: real, y: real, z: real)

  function Add(a: Vec3, b: Vec3): Vec3 {
    Vec3(a.x + b.x, a.y + b.y, a.z + b.z)
  }

  /** The transform of a table or a chair. */
  datatype Pose = Pose(position: Vec3, yaw: real)

  /** A table-chair set as values: its table and its chair array, each possibly unassigned. */
  datatype SetView = SetView(table: Option<Pose>, chairs: Option<seq<Option<Pose>>>)

  /** The serialized defaults of the three spacing settings. */
  const DefaultChairDistanceFromTable: real := 0.5
  const DefaultLongTableChairSpacing: real := 0.8
  const DefaultTableSpacing: real := 2.0

  /** A chair whose offset from the table is negative in x turns to +90, any other to -90. */
  function FacingYaw(xOffset: real): (yaw: real)
    ensures yaw == 90.0 || yaw == -90.0
    ensures yaw == 90.0 <==> xOffset < 0.0
  {
    if xOffset < 0.0 then 90.0 else -90.0
  }

  /**
   * The transform chair `i` of a set of `count` chairs gets when the table is
   * at `pos` with width `width`; `entry` is the chair's transform before.
   */
  function PlaceChair(count: int, i: int, entry: Option<Pose>, pos: Vec3,
                      width: real, distance: real, spacing: real): (r: Option<Pose>)
    ensures r.None? <==> entry.None?
    ensures count != 2 && count != 4 ==> r == entry
    ensures r.Some? && (count == 2 || count == 4) ==>
              r.value.position.y == pos.y && (r.value.yaw == 90.0 || r.value.yaw == -90.0)
  {
    if entry.None? then entry
    else if count == 4 then
      var xOffset := if i < 2 then -width / 2.0 else width / 2.0;
      var zOffset := if i % 2 == 0 then -spacing else spacing;
      Some(Pose(Add(pos, Vec3(xOffset * (1.0 + distance), 0.0, zOffset)), FacingYaw(xOffset)))
    else if count == 2 then
      var xOffset := if i == 0 then -width / 2.0 else width / 2.0;
      Some(Pose(Add(pos, Vec3(xOffset * (1.0 + distance), 0.0, 0.0)), FacingYaw(xOffset)))
    else entry
  }

  /** The chair array after the chair loops of `AlignTableAndChairs`. */
  function Arranged(chairs: seq<Option<Pose>>, pos: Vec3,
                    width: real, distance: real, spacing: real): (r: seq<Option<Pose>>)
    ensures |r| == |chairs|
    ensures forall i :: 0 <= i < |r| ==> (r[i].None? <==> chairs[i].None?)
    ensures |chairs| != 2 && |chairs| != 4 ==> r == chairs
  {
    seq(|chairs|, i requires 0 <= i < |chairs| => PlaceChair(|chairs|, i, chairs[i], pos, width, distance, spacing))
  }

  /** `AlignTableAndChairs` on values. */
  function Align(v: SetView, pos: Vec3, width: real, distance: real, spacing: real): (r: SetView)
    ensures v.table.None? || v.chairs.None? ==> r == v
    ensures v.table.Some? && v.chairs.Some? ==>
              r.table == Some(Pose(pos, v.table.value.yaw)) && r.chairs.Some?
  {
    if v.table.None? || v.chairs.None? then v
    else SetView(Some(v.table.value.(position := pos)),
                 Some(Arranged(v.chairs.value, pos, width, distance, spacing)))
  }

  /** The cursor of `AlignMultipleSets` after `steps` tables of width `width`. */
  function Advance(start: Vec3, steps: nat, width: real, spacing: real): (p: Vec3)
    ensures p.y == start.y && p.z == start.z
  {
    if steps == 0 then start
    else
      var prev := Advance(start, steps - 1, width, spacing);
      prev.(x := prev.x + (width + spacing))
  }

  // ---------------------------------------------------------------------
  // Properties
  // ---------------------------------------------------------------------

  /** Long set: chairs 0 and 1 on the -x side, 2 and 3 on the +x side, even ones at -z, odd ones at +z. */
  lemma LongSetPlacement(chairs: seq<Option<Pose>>, pos: Vec3, width: real,
                         distance: real, spacing: real, i: int)
    requires |chairs| == 4 && 0 <= i < 4 && chairs[i].Some?
    ensures Arranged(chairs, pos, width, distance, spacing)[i].Some?
    ensures var p := Arranged(chairs, pos, width, distance, spacing)[i].value.position;
            p.x == (if i < 2 then pos.x - (width / 2.0) * (1.0 + distance)
                             else pos.x + (width / 2.0) * (1.0 + distance)) &&
            p.y == pos.y &&
            p.z == (if i % 2 == 0 then pos.z - spacing else pos.z + spacing)
  {
  }

  /** Small set: chair 0 on the -x side, chair 1 on the +x side, both level with the table in y and z. */
  lemma SmallSetPlacement(chairs: seq<Option<Pose>>, pos: Vec3, width: real,
                          distance: real, spacing: real, i: int)
    requires |chairs| == 2 && 0 <= i < 2 && chairs[i].Some?
    ensures Arranged(chairs, pos, width, distance, spacing)[i].Some?
    ensures var p := Arranged(chairs, pos, width, distance, spacing)[i].value.position;
            p.x == (if i == 0 then pos.x - (width / 2.0) * (1.0 + distance)
                              else pos.x + (width / 2.0) * (1.0 + distance)) &&
            p.y == pos.y && p.z == pos.z
  {
  }

  /**
   * For a table of positive width the left-side chairs (0 and 1 of four, 0
   * of two) face +90 and the others -90; when the chairs sit outside the
   * table's centre line (`1 + distance > 0`) that is exactly "the chairs with
   * smaller x than the table face +90".
   */
  lemma ChairsFaceTable(chairs: seq<Option<Pose>>, pos: Vec3, width: real,
                        distance: real, spacing: real, i: int)
    requires width > 0.0
    requires |chairs| == 2 || |chairs| == 4
    requires 0 <= i < |chairs| && chairs[i].Some?
    ensures var c := Arranged(chairs, pos, width, distance, spacing)[i];
            c.Some? && (c.value.yaw == 90.0 <==> i < |chairs| / 2) &&
            (c.value.yaw == 90.0 || c.value.yaw == -90.0)
    ensures var c := Arranged(chairs, pos, width, distance, spacing)[i];
            1.0 + distance > 0.0 ==> (c.value.yaw == 90.0 <==> c.value.position.x < pos.x)
  {
  }

  /**
   * Every placed chair's transform depends only on the set size, its index
   * and the table position, so aligning a set again overwrites the previous
   * alignment: the set ends where the last alignment put it.
   */
  lemma AlignOverwrites(v: SetView, first: Vec3, second: Vec3,
                        width: real, distance: real, spacing: real)
    ensures Align(Align(v, first, width, distance, spacing), second, width, distance, spacing)
            == Align(v, second, width, distance, spacing)
  {
    if v.table.Some? && v.chairs.Some? {
      var c := v.chairs.value;
      var once := Arranged(c, first, width, distance, spacing);
      var twice := Arranged(once, second, width, distance, spacing);
      var direct := Arranged(c, second, width, distance, spacing);
      assert forall i :: 0 <= i < |c| ==> twice[i] == direct[i];
      assert twice == direct;
    }
  }

  /** The cursor advances by exactly `width + spacing` in x per table, and only in x. */
  lemma {:induction false} AdvanceClosedForm(start: Vec3, steps: nat, width: real, spacing: real)
    ensures Advance(start, steps, width, spacing)
            == Vec3(start.x + steps as real * (width + spacing), start.y, start.z)
  {
    if steps > 0 {
      AdvanceClosedForm(start, steps - 1, width, spacing);
      assert (steps - 1) as real * (width + spacing) + (width + spacing)
             == steps as real * (width + spacing);
    }
  }

  // ---------------------------------------------------------------------
  // The MonoBehaviour
  // ---------------------------------------------------------------------

  /** `TableChairSet`: a table object and its chair array. */
  class TableChairSet {
    var table: Option<Pose>
    var chairs: array?<Option<Pose>>

    function View(): SetView
      reads this, chairs
    {
      SetView(table, if chairs == null then None else Some(chairs[..]))
    }

    constructor (table: Option<Pose>, chairs: array?<Option<Pose>>)
      ensures this.table == table && this.chairs == chairs
    {
      this.table := table;
      this.chairs := chairs;
    }
  }

  class TableLayout {
    var longTableSet: TableChairSet
    var smallTableSet: TableChairSet
    var chairDistanceFromTable: real
    var longTableChairSpacing: real
    var tableSpacing: real

    /** The two serialized sets are distinct objects with distinct chair arrays. */
    predicate Valid()
      reads this, longTableSet, smallTableSet
    {
      longTableSet != smallTableSet &&
      (longTableSet.chairs != null && smallTableSet.chairs != null ==>
         longTableSet.chairs != smallTableSet.chairs)
    }

    constructor (longSet: TableChairSet, smallSet: TableChairSet)
      requires longSet != smallSet
      requires longSet.chairs != null && smallSet.chairs != null ==> longSet.chairs != smallSet.chairs
      ensures longTableSet == longSet && smallTableSet == smallSet
      ensures chairDistanceFromTable == DefaultChairDistanceFromTable
      ensures longTableChairSpacing == DefaultLongTableChairSpacing
      ensures tableSpacing == DefaultTableSpacing
      ensures Valid()
    {
      longTableSet := longSet;
      smallTableSet := smallSet;
      chairDistanceFromTable := DefaultChairDistanceFromTable;
      longTableChairSpacing := DefaultLongTableChairSpacing;
      tableSpacing := DefaultTableSpacing;
    }

    /** Moves the set's table to `position` and places its chairs; `tableWidth` is its bounds' x size. */
    method AlignTableAndChairs(s: TableChairSet, position: Vec3, tableWidth: real)
      modifies s, s.chairs
      ensures s.chairs == old(s.chairs)
      ensures s.View() == Align(old(s.View()), position, tableWidth,
                                chairDistanceFromTable, longTableChairSpacing)
    {
      if s.table.None? || s.chairs == null {
        return;
      }
      s.table := Some(s.table.value.(position := position));
      var chairs := s.chairs;
      ghost var before := chairs[..];
      if chairs.Length == 4 {
        for i := 0 to chairs.Length
          modifies chairs
          invariant forall k :: 0 <= k < i ==>
                      chairs[k] == PlaceChair(4, k, before[k], position, tableWidth,
                                              chairDistanceFromTable, longTableChairSpacing)
          invariant forall k :: i <= k < chairs.Length ==> chairs[k] == before[k]
        {
          if chairs[i].None? {
            continue;
          }
          var xOffset := if i < 2 then -tableWidth / 2.0 else tableWidth / 2.0;
          var zOffset := if i % 2 == 0 then -longTableChairSpacing else longTableChairSpacing;
          var chairPosition := Add(position, Vec3(xOffset * (1.0 + chairDistanceFromTable), 0.0, zOffset));
          var rotationY := if xOffset < 0.0 then 90.0 else -90.0;
          assert PlaceChair(4, i, before[i], position, tableWidth, chairDistanceFromTable,
                            longTableChairSpacing).value.position.x == chairPosition.x;
          chairs[i] := Some(Pose(chairPosition, rotationY));
        }
      } else if chairs.Length == 2 {
        for i := 0 to chairs.Length
          modifies chairs
          invariant forall k :: 0 <= k < i ==>
                      chairs[k] == PlaceChair(2, k, before[k], position, tableWidth,
                                              chairDistanceFromTable, longTableChairSpacing)
          invariant forall k :: i <= k < chairs.Length ==> chairs[k] == before[k]
        {
          if chairs[i].None? {
            continue;
          }
          var xOffset := if i == 0 then -tableWidth / 2.0 else tableWidth / 2.0;
          var chairPosition := Add(position, Vec3(xOffset * (1.0 + chairDistanceFromTable), 0.0, 0.0));
          var rotationY := if xOffset < 0.0 then 90.0 else -90.0;
          assert PlaceChair(2, i, before[i], position, tableWidth, chairDistanceFromTable,
                            longTableChairSpacing).value.position.x == chairPosition.x;
          chairs[i] := Some(Pose(chairPosition, rotationY));
        }
      }
      assert chairs[..] == Arranged(before, position, tableWidth,
                                    chairDistanceFromTable, longTableChairSpacing);
    }

    /**
     * Lays out `numLongTables` long tables and then `numSmallTables` small
     * ones along x. `completed` is false when a set's table is unassigned and
     * measuring its bounds throws, which ends the method.
     */
    method AlignMultipleSets(startPosition: Vec3, numLongTables: int, numSmallTables: int,
                             longWidth: real, smallWidth: real) returns (completed: bool)
      requires Valid()
      modifies longTableSet, smallTableSet, longTableSet.chairs, smallTableSet.chairs
      ensures Valid()
      ensures longTableSet.chairs == old(longTableSet.chairs)
      ensures smallTableSet.chairs == old(smallTableSet.chairs)
      ensures completed == (!(numLongTables > 0 && old(longTableSet.table).None?) &&
                            !(numSmallTables > 0 && old(smallTableSet.table).None?))
      ensures longTableSet.View() ==
                if numLongTables > 0
                then Align(old(longTableSet.View()),
                           Advance(startPosition, numLongTables - 1, longWidth, tableSpacing),
                           longWidth, chairDistanceFromTable, longTableChairSpacing)
                else old(longTableSet.View())
      ensures smallTableSet.View() ==
                if numSmallTables > 0 && !(numLongTables > 0 && old(longTableSet.table).None?)
                then Align(old(smallTableSet.View()),
                           Advance(Advance(startPosition, if numLongTables > 0 then numLongTables else 0,
                                           longWidth, tableSpacing),
                                   numSmallTables - 1, smallWidth, tableSpacing),
                           smallWidth, chairDistanceFromTable, longTableChairSpacing)
                else old(smallTableSet.View())
    {
      var long, small := longTableSet, smallTableSet;
      ghost var long0, small0 := long.View(), small.View();
      var currentPosition := startPosition;
      completed := true;

      var i := 0;
      while i < numLongTables
        invariant 0 <= i <= if numLongTables > 0 then numLongTables else 0
        invariant currentPosition == Advance(startPosition, i, longWidth, tableSpacing)
        invariant long.chairs == old(long.chairs) && small.chairs == old(small.chairs)
        invariant i > 0 ==> long0.table.Some?
        invariant long.View() == if i == 0 then long0
                                 else Align(long0, Advance(startPosition, i - 1, longWidth, tableSpacing),
                                            longWidth, chairDistanceFromTable, longTableChairSpacing)
        invariant small.View() == small0
      {
        AlignOverwrites(long0, Advance(startPosition, if i == 0 then 0 else i - 1, longWidth, tableSpacing),
                        currentPosition, longWidth, chairDistanceFromTable, longTableChairSpacing);
        AlignTableAndChairs(long, currentPosition, longWidth);
        if long.table.None? {
          completed := false;
          return;
        }
        currentPosition := currentPosition.(x := currentPosition.x + (longWidth + tableSpacing));
        i := i + 1;
      }

      ghost var smallStart, longAfter := currentPosition, long.View();
      var j := 0;
      while j < numSmallTables
        invariant 0 <= j <= if numSmallTables > 0 then numSmallTables else 0
        invariant currentPosition == Advance(smallStart, j, smallWidth, tableSpacing)
        invariant long.chairs == old(long.chairs) && small.chairs == old(small.chairs)
        invariant j > 0 ==> small0.table.Some?
        invariant small.View() == if j == 0 then small0
                                  else Align(small0, Advance(smallStart, j - 1, smallWidth, tableSpacing),
                                             smallWidth, chairDistanceFromTable, longTableChairSpacing)
        invariant long.View() == longAfter
      {
        AlignOverwrites(small0, Advance(smallStart, if j == 0 then 0 else j - 1, smallWidth, tableSpacing),
                        currentPosition, smallWidth, chairDistanceFromTable, longTableChairSpacing);
        AlignTableAndChairs(small, currentPosition, smallWidth);
        if small.table.None? {
          completed := false;
          return;
        }
        currentPosition := currentPosition.(x := currentPosition.x + (smallWidth + tableSpacing));
        j := j + 1;
      }
    }
  }
}
