/** The `platforms` table and the five operations the server performs on it. */
module Storage {
  import opened Schema

  /** `listed` is a listing of `userId`'s rows in `rows`: every listed row is stored
      and owned by `userId`, every such row is listed, and none is listed twice. */
  ghost predicate IsListing(rows: map<int, Platform>, userId: string, listed: seq<Platform>)
  {
    && (forall i :: 0 <= i < |listed| ==>
          listed[i].id in rows && rows[listed[i].id] == listed[i] && listed[i].userId == userId)
    && (forall id :: id in rows && rows[id].userId == userId ==> rows[id] in listed)
    && (forall i, j :: 0 <= i < j < |listed| ==> listed[i].id != listed[j].id)
  }

  /** The table, held in memory: rows by primary key, and the serial sequence's next value. */
  class DatabaseStorage {
    var rows: map<int, Platform>
    var nextId: int

    /** Every row sits under its own id, and the serial has not handed that id out yet
        again: ids run from 1 and every stored id lies below `nextId`. */
    ghost predicate Valid()
      reads this
    {
      && nextId >= 1
      && forall id :: id in rows ==> 1 <= id < nextId && rows[id].id == id
    }

    constructor ()
      ensures Valid() && rows == map[] && nextId == 1
    {
      rows := map[];
      nextId := 1;
    }

    /** `select * from platforms where user_id = userId`: a scan of the table. */
    method GetPlatforms(userId: string) returns (listed: seq<Platform>)
      requires Valid()
      ensures IsListing(rows, userId, listed)
    {
      listed := [];
      var id := 1;
      while id < nextId
        invariant 1 <= id <= nextId
        invariant forall i :: 0 <= i < |listed| ==>
          listed[i].id in rows && rows[listed[i].id] == listed[i] && listed[i].userId == userId && listed[i].id < id
        invariant forall k :: k in rows && k < id && rows[k].userId == userId ==> rows[k] in listed
        invariant forall i, j :: 0 <= i < j < |listed| ==> listed[i].id < listed[j].id
      {
        if id in rows && rows[id].userId == userId {
          listed := listed + [rows[id]];
        }
        id := id + 1;
      }
    }

    /** `select * from platforms where id = id`: the row, or nothing (`undefined`). */
    method GetPlatform(id: int) returns (found: Option<Platform>)
      requires Valid()
      ensures found.Some? <==> id in rows
      ensures found.Some? ==> found.value == rows[id] && found.value.id == id
    {
      if id in rows {
        found := Some(rows[id]);
      } else {
        found := None;
      }
    }

    /** `insert into platforms ... returning *`: one new row under the next serial id. */
    method CreatePlatform(p: InsertPlatform, stats: Option<Stats>, now: Timestamp) returns (row: Platform)
      requires Valid()
      modifies this
      ensures Valid()
      ensures row.id == old(nextId) && row.id !in old(rows)
      ensures row == NewRow(row.id, p, stats, now)
      ensures rows == old(rows)[row.id := row]
      ensures nextId == old(nextId) + 1
    {
      row := NewRow(nextId, p, stats, now);
      rows := rows[nextId := row];
      nextId := nextId + 1;
    }

    /** `update platforms set stats = stats, last_updated = now where id = id returning *`:
        only that row's `stats` and `lastUpdated` change; an absent id changes nothing. */
    method UpdatePlatformStats(id: int, stats: Stats, now: Timestamp) returns (updated: Option<Platform>)
      requires Valid()
      modifies this
      ensures Valid() && nextId == old(nextId)
      ensures id in old(rows) ==>
        && rows == old(rows)[id := old(rows)[id].(stats := stats, lastUpdated := now)]
        && updated == Some(rows[id])
      ensures id !in old(rows) ==> rows == old(rows) && updated == None
    {
      if id in rows {
        var row := rows[id].(stats := stats, lastUpdated := now);
        rows := rows[id := row];
        updated := Some(row);
      } else {
        updated := None;
      }
    }

    /** `delete from platforms where id = id`: that row goes, the others stay, and the
        serial never hands the id out again. */
    method DeletePlatform(id: int)
      requires Valid()
      modifies this
      ensures Valid() && nextId == old(nextId)
      ensures rows == old(rows) - {id}
    {
      rows := rows - {id};
    }
  }

  /** After a delete, no listing of the owner's rows holds the deleted id. */
  lemma DeletedNotListed(rows: map<int, Platform>, id: int, userId: string, listed: seq<Platform>)
    requires IsListing(rows - {id}, userId, listed)
    ensures forall i :: 0 <= i < |listed| ==> listed[i].id != id
  {
  }
}
