/** Rooms and their connections, and the lights of a group: the stored
    `RoomConnection` rows a room adds and removes (with the mirrored row for
    the other room), and the `LightGroup` rows a group adds and removes. */
module Rooms {
  import opened Wrappers
  import opened Json

  /** The sides of a room a connection can be on. */
  const Left: int := 1
  const Right: int := 2
  const Top: int := 3
  const Bottom: int := 4

  predicate IsSide(side: int)
  {
    Left <= side <= Bottom
  }

  /** The side the other room sees a connection on: left and right swap, top
      and bottom swap; any other number is taken as bottom and becomes top. */
  function Mirror(side: int): (r: int)
    ensures IsSide(r)
    ensures IsSide(side) ==> r != side
    ensures side == Left || side == Right <==> r == Left || r == Right
    ensures !IsSide(side) ==> r == Top
  {
    if side == Left then Right
    else if side == Right then Left
    else if side == Top then Bottom
    else Top
  }

  /** Mirroring twice gives back every side. */
  lemma MirrorInvolution(side: int)
    requires IsSide(side)
    ensures Mirror(Mirror(side)) == side
  {
  }

  // ---------------------------------------------------------------------------
  // Room connections

  /** A stored `RoomConnection`: from a room to another, of a connection type
      (wall, door, open space, half wall), on a side of the first room. */
  datatype Connection = Connection(first: int, second: int, kind: int, side: int)

  /** Some stored row goes from `a` to `b`. */
  predicate Connected(rows: set<Connection>, a: int, b: int)
  {
    exists r | r in rows :: r.first == a && r.second == b
  }

  /** The rows after `add_connection`: the row asked for, and with `symm` the
      row from the other room back, on the mirrored side. */
  function WithConnection(rows: set<Connection>, a: int, b: int, kind: int, side: int, symm: bool): set<Connection>
  {
    rows + {Connection(a, b, kind, side)} + (if symm then {Connection(b, a, kind, Mirror(side))} else {})
  }

  /** The rows after `remove_connection`: every row from `a` to `b` goes, and
      with `symm` every row from `b` to `a`. */
  function WithoutConnection(rows: set<Connection>, a: int, b: int, symm: bool): (r: set<Connection>)
    ensures r <= rows
    ensures !Connected(r, a, b) && (symm ==> !Connected(r, b, a))
    ensures forall c | c in rows && !(c.first == a && c.second == b) && !(symm && c.first == b && c.second == a) :: c in r
  {
    set c | c in rows && !(c.first == a && c.second == b) && !(symm && c.first == b && c.second == a)
  }

  /** A symmetric connection joins the rooms both ways, the way back on the
      mirrored side, and mirroring that side again gives the side asked for. */
  lemma ConnectionIsSymmetric(rows: set<Connection>, a: int, b: int, kind: int, side: int)
    requires IsSide(side)
    ensures var after := WithConnection(rows, a, b, kind, side, true);
      && Connection(a, b, kind, side) in after
      && Connection(b, a, kind, Mirror(side)) in after
      && Connected(after, a, b) && Connected(after, b, a)
      && Mirror(Mirror(side)) == side
  {
    var after := WithConnection(rows, a, b, kind, side, true);
    assert Connection(a, b, kind, side) in after;
    assert Connection(b, a, kind, Mirror(side)) in after;
  }

  /** Adding the same connection twice stores nothing more. */
  lemma AddConnectionIdempotent(rows: set<Connection>, a: int, b: int, kind: int, side: int, symm: bool)
    ensures var once := WithConnection(rows, a, b, kind, side, symm);
      WithConnection(once, a, b, kind, side, symm) == once
  {
  }

  /** Removing a symmetric connection undoes adding it, as far as the two
      rooms are concerned, and leaves the rows between other rooms alone. */
  lemma RemoveUndoesAdd(rows: set<Connection>, a: int, b: int, kind: int, side: int)
    ensures var after := WithoutConnection(WithConnection(rows, a, b, kind, side, true), a, b, true);
      && after == WithoutConnection(rows, a, b, true)
      && forall c | c in rows && !(c.first == a && c.second == b) && !(c.first == b && c.second == a) :: c in after
  {
    var added := WithConnection(rows, a, b, kind, side, true);
    var after := WithoutConnection(added, a, b, true);
    forall c | c in after ensures c in WithoutConnection(rows, a, b, true) {
      assert c in added;
    }
  }

  /** The stored `RoomConnection` rows. `get_or_create` matches all four
      fields, so the rows form a set. */
  class ConnectionTable {
    var rows: set<Connection>

    constructor ()
      ensures rows == {}
    {
      rows := {};
    }

    /** `RoomConnection.objects.get_or_create(...)` */
    method GetOrCreate(a: int, b: int, kind: int, side: int) returns (row: Connection, created: bool)
      modifies this
      ensures row == Connection(a, b, kind, side)
      ensures created <==> row !in old(rows)
      ensures rows == old(rows) + {row}
    {
      row := Connection(a, b, kind, side);
      created := row !in rows;
      if created {
        rows := rows + {row};
      }
    }

    /** `Room.add_connection` as the room's code intends it: the row asked
        for, then with `symm` the row from the other room back, of the same
        type, on the mirrored side. */
    method AddConnection(a: int, b: int, kind: int, side: int, symm: bool) returns (row: Connection)
      modifies this
      ensures row == Connection(a, b, kind, side)
      ensures rows == WithConnection(old(rows), a, b, kind, side, symm)
      decreases if symm then 1 else 0
    {
      var created;
      row, created := GetOrCreate(a, b, kind, side);
      if symm {
        var back := AddConnection(b, a, kind, Mirror(side), false);
      }
    }

    /** `Room.add_connection` as written: the name `connection` is rebound to
        the stored row, so the mirrored call passes that row as the connection
        type and its `get_or_create` raises TypeError; the row asked for stays
        stored and no row back is created. */
    method AddConnectionAsWritten(a: int, b: int, kind: int, side: int, symm: bool) returns (r: Outcome<Connection>)
      modifies this
      ensures rows == old(rows) + {Connection(a, b, kind, side)}
      ensures !symm ==> r == Ok(Connection(a, b, kind, side))
      ensures symm ==> r == Err(TypeError)
      ensures symm && !Connected(old(rows), b, a) && a != b ==> !Connected(rows, b, a)
    {
      var row, created := GetOrCreate(a, b, kind, side);
      if symm {
        return Err(TypeError);
      }
      r := Ok(row);
    }

    /** `Room.remove_connection`: delete every row from `a` to `b`, then with
        `symm` every row from `b` to `a`. */
    method RemoveConnection(a: int, b: int, symm: bool)
      modifies this
      ensures rows == WithoutConnection(old(rows), a, b, symm)
      decreases if symm then 1 else 0
    {
      rows := set c | c in rows && !(c.first == a && c.second == b);
      if symm {
        RemoveConnection(b, a, false);
      }
    }
  }

  // ---------------------------------------------------------------------------
  // The lights of a group

  /** The extra fields of a stored `LightGroup` row. */
  datatype Membership = Membership(brightness: int, ct: int, alert: Option<string>)

  /** What a new `LightGroup` row holds: brightness 0, ct 0, no alert. */
  const NewMembership: Membership := Membership(0, 0, None)

  /** The stored `LightGroup` rows, by group and light. */
  class LightGroupTable {
    var members: map<(int, int), Membership>

    constructor ()
      ensures members == map[]
    {
      members := map[];
    }

    /** `Group.add_light`: the row of the light in the group, created with
        the defaults when there is none; an existing row is returned as it is. */
    method AddLight(group: int, light: int) returns (row: Membership)
      modifies this
      ensures (group, light) in old(members) ==> members == old(members) && row == old(members)[(group, light)]
      ensures (group, light) !in old(members) ==> members == old(members)[(group, light) := NewMembership] && row == NewMembership
      ensures (group, light) in members && members[(group, light)] == row
    {
      if (group, light) in members {
        row := members[(group, light)];
      } else {
        row := NewMembership;
        members := members[(group, light) := row];
      }
    }

    /** `Group.remove_light`: delete the light's row in the group, if any. */
    method RemoveLight(group: int, light: int)
      modifies this
      ensures members == old(members) - {(group, light)}
    {
      members := members - {(group, light)};
    }
  }

  /** Adding a light and then removing it leaves a group's rows as they were
      when the light was not in the group. */
  lemma AddThenRemoveLight(members: map<(int, int), Membership>, group: int, light: int)
    requires (group, light) !in members
    ensures members[(group, light) := NewMembership] - {(group, light)} == members
  {
  }
}
