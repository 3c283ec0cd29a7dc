/** Session state with an in-memory fallback: saves go to a cache and, while the store is thought to
    be available, to the database; a retry loop flushes the cache once the store is back. */
module SessionFallback {
  import opened Common

  type Id = nat
  type Data = string
  type Table = map<Id, Data>

  datatype State = State(cache: Table, database: Table, available: bool)

  function Save(s: State, id: Id, data: Data, ok: bool): State {
    var cached := s.(cache := s.cache[id := data]);
    if !s.available then cached
    else if ok then cached.(database := s.database[id := data])
    else cached.(available := false)
  }

  function Restore(s: State, id: Id, ok: bool): (State, Option<Data>) {
    if id in s.cache then (s, Some(s.cache[id]))
    else if !s.available then (s, None)
    else if !ok then (s.(available := false), None)
    else (s, if id in s.database then Some(s.database[id]) else None)
  }

  /** The rows that a flush of `cache` writes when the writes of `failing` fail. */
  function Written(cache: Table, failing: set<Id>): Table {
    map id | id in cache && id !in failing :: cache[id]
  }

  /** The whole effect of an undisturbed flush: every write that does not fail reaches the database,
      and the store counts as available again exactly if none failed. */
  function Flushed(s: State, failing: set<Id>): State {
    State(s.cache, s.database + Written(s.cache, failing), s.cache.Keys !! failing)
  }

  lemma WriteOneMore(database: Table, cache: Table, held: set<Id>, id: Id)
    requires id in cache && id in held
    ensures (database + Written(cache, held))[id := cache[id]] == database + Written(cache, held - {id})
  {
  }

  /** A restore returns the cached state; for a session that is not cached it returns the row of the
      database, if the store is available and the query succeeds. A failing query clears the flag. */
  lemma RestoreEffect(s: State, id: Id, ok: bool, data: Data)
    ensures var (t, found) := Restore(s, id, ok);
            var asked := id !in s.cache && s.available;
            && (found == Some(data) <==>
                  || (id in s.cache && s.cache[id] == data)
                  || (asked && ok && id in s.database && s.database[id] == data))
            && t.cache == s.cache && t.database == s.database
            && (t.available <==> s.available && (asked ==> ok))
  {
  }

  /** A save is always cached; it reaches the database exactly if the store is available and the write
      succeeds, and a failing write clears the flag. */
  lemma SaveEffect(s: State, id: Id, data: Data, ok: bool)
    ensures var t := Save(s, id, data, ok);
            && t.cache == s.cache[id := data]
            && t.database == (if s.available && ok then s.database[id := data] else s.database)
            && (t.available <==> s.available && ok)
  {
  }

  /** A flush writes each cached state whose write does not fail, and leaves the other rows. */
  lemma FlushEffect(s: State, failing: set<Id>, id: Id)
    ensures var t := Flushed(s, failing);
            && t.cache == s.cache
            && (id in s.cache && id !in failing ==> id in t.database && t.database[id] == s.cache[id])
            && (id !in s.cache || id in failing ==>
                  (id in t.database <==> id in s.database) && (id in s.database ==> t.database[id] == s.database[id]))
            && (t.available <==> forall x | x in s.cache :: x !in failing)
  {
  }

  class Fallback {
    var cache: Table
    var database: Table
    var available: bool

    ghost function View(): State
      reads this
    {
      State(cache, database, available)
    }

    constructor (database: Table, available: bool)
      ensures View() == State(map[], database, available)
    {
      cache, this.database, this.available := map[], database, available;
    }

    method SaveState(id: Id, data: Data, ok: bool)
      modifies this
      ensures View() == Save(old(View()), id, data, ok)
    {
      cache := cache[id := data];
      if available {
        if ok {
          database := database[id := data];
        } else {
          available := false;
        }
      }
    }

    method RestoreState(id: Id, ok: bool) returns (data: Option<Data>)
      modifies this
      ensures (View(), data) == Restore(old(View()), id, ok)
    {
      if id in cache { return Some(cache[id]); }
      if !available { return None; }
      if !ok {
        available := false;
        return None;
      }
      return if id in database then Some(database[id]) else None;
    }

    /** One pass of the retry loop with nothing in between: `reachable` is the probe, `failing` the
        writes that fail. */
    method RetryFlush(reachable: bool, failing: set<Id>) returns (done: bool)
      requires !available
      modifies this
      ensures View() == if reachable then Flushed(old(View()), failing) else old(View())
      ensures done == available
    {
      if !reachable { return false; }
      var todo := cache.Keys;
      var allFlushed := true;
      while todo != {}
        invariant todo <= cache.Keys && cache == old(cache) && !available
        invariant allFlushed <==> (cache.Keys - todo) !! failing
        invariant database == old(database) + Written(cache, failing + todo)
        decreases todo
      {
        var id :| id in todo;
        if id in failing {
          allFlushed := false;
          assert failing + todo == failing + (todo - {id});
        } else {
          WriteOneMore(old(database), cache, failing + todo, id);
          assert failing + todo - {id} == failing + (todo - {id});
          database := database[id := cache[id]];
        }
        todo := todo - {id};
      }
      assert cache.Keys - todo == cache.Keys && failing + todo == failing;
      if allFlushed {
        available := true;
      }
      done := allFlushed;
    }
  }
}
