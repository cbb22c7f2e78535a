/** The hosted database as the two route handlers use it: the
    `aura_profiles` table keyed by `telegram_id`, and the append-only
    `aura_user_events` table. Every call may fail; `fault` says whether the
    backend answers this call with an error. */
module Store {

  import opened Values

  const TelegramIdColumn: string := "telegram_id"

  /** A row of `aura_user_events`. */
  datatype Event = Event(telegramId: int, eventType: string, eventData: Row)

  /** The row stored under `id` names that id in its `telegram_id` column. */
  predicate Keyed(row: Row, id: int)
  {
    TelegramIdColumn in row && row[TelegramIdColumn] == Int(id)
  }

  class Database {
    var profiles: map<int, Row>
    var events: seq<Event>

    ghost predicate Valid()
      reads this
    {
      forall id :: id in profiles ==> Keyed(profiles[id], id)
    }

    constructor (profiles: map<int, Row>, events: seq<Event>)
      requires forall id :: id in profiles ==> Keyed(profiles[id], id)
      ensures Valid()
      ensures this.profiles == profiles && this.events == events
    {
      this.profiles := profiles;
      this.events := events;
    }

    /** `.select('*').eq('telegram_id', id).single()`: the row, or an error
        when the backend fails or no row matches. */
    method SelectProfile(id: int, fault: bool) returns (r: Option<Row>)
      ensures r.Some? <==> !fault && id in profiles
      ensures r.Some? ==> r.value == profiles[id]
    {
      if fault || id !in profiles {
        r := None;
      } else {
        r := Some(profiles[id]);
      }
    }

    /** `.update(patch).eq('telegram_id', id).select().single()`: merges the
        patch into the matching row and returns it; an error when the backend
        fails or no row matches. The patch may not rename the key. */
    method UpdateProfile(id: int, patch: Row, fault: bool) returns (r: Option<Row>)
      requires Valid()
      requires TelegramIdColumn !in patch
      modifies this`profiles
      ensures Valid()
      ensures r.Some? <==> !fault && id in old(profiles)
      ensures r.Some? ==> r.value == old(profiles)[id] + patch && profiles == old(profiles)[id := r.value]
      ensures r.None? ==> profiles == old(profiles)
    {
      if fault || id !in profiles {
        r := None;
      } else {
        var row := profiles[id] + patch;
        profiles := profiles[id := row];
        r := Some(row);
      }
    }

    /** `.insert(row).select().single()`: stores a new row under its
        `telegram_id`; an error when the backend fails or the key is taken. */
    method InsertProfile(row: Row, fault: bool) returns (r: Option<Row>)
      requires Valid()
      requires TelegramIdColumn in row && row[TelegramIdColumn].Int?
      modifies this`profiles
      ensures Valid()
      ensures var id := row[TelegramIdColumn].i;
        && (r.Some? <==> !fault && id !in old(profiles))
        && (r.Some? ==> r.value == row && profiles == old(profiles)[id := row])
      ensures r.None? ==> profiles == old(profiles)
    {
      var id := row[TelegramIdColumn].i;
      if fault || id in profiles {
        r := None;
      } else {
        profiles := profiles[id := row];
        r := Some(row);
      }
    }

    /** `.from('aura_user_events').insert(e)`: appends the event unless the backend fails. */
    method InsertEvent(e: Event, fault: bool) returns (ok: bool)
      modifies this`events
      ensures ok == !fault
      ensures events == if ok then old(events) + [e] else old(events)
    {
      ok := !fault;
      if ok {
        events := events + [e];
      }
    }
  }
}
