/** The persisted schedule: one entry per eco-window occurrence, keyed by
    the occurrence's start instant, holding named numeric fields that are
    merged field by field. */
module ScheduleStore {
  import opened Common

  /** One schedule entry: field name to value. The timestamps `eco_start`
      and `eco_end` are held as their instant in seconds. */
  type Entry = map<string, real>

  /** Entries older than this many seconds are dropped by housekeeping. */
  const RETENTION: int := 14 * DAY

  /** `dict.update`: the params' fields win, every other field stays. */
  function Upserted(m: map<Instant, Entry>, index: Instant, params: Entry): (r: map<Instant, Entry>)
    ensures r.Keys == m.Keys + {index}
  {
    if index in m then m[index := m[index] + params] else m[index := params]
  }

  /** The entries housekeeping at `now` keeps. */
  function Housekept(m: map<Instant, Entry>, now: Instant): (r: map<Instant, Entry>)
    ensures r.Keys <= m.Keys
  {
    map k | k in m && !(k < now - RETENTION) :: m[k]
  }

  /** Upsert overwrites only the fields it is given: on an existing key
      the entry's other fields survive; on a new key the params become the
      entry. */
  lemma UpsertMergesFields(m: map<Instant, Entry>, index: Instant, params: Entry, f: string)
    ensures f in params ==> f in Upserted(m, index, params)[index] &&
                            Upserted(m, index, params)[index][f] == params[f]
    ensures f !in params ==>
              (f in Upserted(m, index, params)[index] <==> index in m && f in m[index])
    ensures f !in params && index in m && f in m[index] ==>
              Upserted(m, index, params)[index][f] == m[index][f]
  {
  }

  /** Upsert leaves every other key's entry as it was and removes none. */
  lemma UpsertFramesOtherKeys(m: map<Instant, Entry>, index: Instant, params: Entry, k: Instant)
    requires k in m && k != index
    ensures k in Upserted(m, index, params) && Upserted(m, index, params)[k] == m[k]
  {
  }

  /** Two upserts to one key with different fields keep both fields. */
  lemma UpsertTwiceKeepsBoth(m: map<Instant, Entry>, index: Instant, f: string, x: real, g: string, y: real)
    requires f != g
    ensures var r := Upserted(Upserted(m, index, map[f := x]), index, map[g := y]);
            f in r[index] && r[index][f] == x && g in r[index] && r[index][g] == y
  {
  }

  /** Housekeeping removes exactly the entries whose key lies before
      `now - 14 days`, and leaves the rest untouched. */
  lemma HousekeepingExact(m: map<Instant, Entry>, now: Instant, k: Instant)
    ensures k in Housekept(m, now) <==> k in m && k >= now - RETENTION
    ensures k in Housekept(m, now) ==> Housekept(m, now)[k] == m[k]
  {
  }

  /** Housekeeping twice at the same clock reading removes nothing more. */
  lemma HousekeepingIdempotent(m: map<Instant, Entry>, now: Instant)
    ensures Housekept(Housekept(m, now), now) == Housekept(m, now)
  {
  }

  class Schedule {
    var entries: map<Instant, Entry>

    constructor ()
      ensures entries == map[]
    {
      entries := map[];
    }

    /** `load`: take the persisted `schedule` attribute, if any, then run
        housekeeping. */
    method Load(persisted: Option<map<Instant, Entry>>, now: Instant)
      modifies this
      ensures entries == Housekept(persisted.GetOr(map[]), now)
    {
      match persisted {
        case Some(m) => entries := m;
        case None => entries := map[];
      }
      Housekeeping(now);
    }

    /** `upsert(index, params)` */
    method Upsert(index: Instant, params: Entry)
      modifies this
      ensures entries == Upserted(old(entries), index, params)
    {
      if index in entries {
        entries := entries[index := entries[index] + params];
      } else {
        entries := entries[index := params];
      }
    }

    /** `get_all()` */
    function GetAll(): map<Instant, Entry>
      reads this
    {
      entries
    }

    /** `get(index)`: the entry stored under the key, if any. */
    function Get(index: Instant): (r: Option<Entry>)
      reads this
      ensures r.Some? <==> index in entries
      ensures r.Some? ==> r.value == entries[index]
    {
      if index in entries then Some(entries[index]) else None
    }

    /** `_housekeeping()`: walks the keys, popping those older than two
        weeks. */
    method Housekeeping(now: Instant)
      modifies this
      ensures entries == Housekept(old(entries), now)
    {
      var twoWeeksAgo := now - RETENTION;
      var pending := entries.Keys;
      while pending != {}
        invariant pending <= old(entries).Keys
        invariant entries == map k | k in old(entries) && (k in pending || k >= twoWeeksAgo) :: old(entries)[k]
        decreases pending
      {
        if forall x :: x !in pending {
          assert false;
        }
        var k :| k in pending;
        if k < twoWeeksAgo {
          entries := entries - {k};
        }
        pending := pending - {k};
      }
    }
  }
}
