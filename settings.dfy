/**
 * The settings store built by `createApp`: a record of four integer settings,
 * read with `getState`, raised by one with `incrementState` and lowered by one
 * with `decrementState`, which refuses to go at or below a per-key minimum and
 * answers the sentinel -1 instead. Every successful change is written through
 * to browser storage; that write is modelled as the `persisted` snapshot.
 */
module SettingsStore {

  datatype Option<T> = None | Some(value: T) {
    function GetOr(default: T): T {
      match this
      case Some(v) => v
      case None => default
    }
  }

  /** The four keys of the settings record. */
  datatype Key = WorkSessionMinutes | BreakSessionMinutes | LongBreakMinutes | SessionsUntilLongBreak

  type Record = map<Key, int>

  /** A record that holds a value for every key, as the default and every record written back do. */
  predicate Complete(s: Record) {
    forall k: Key :: k in s
  }

  /** The minimum each decrement button passes to `decrementState`. */
  function Floor(k: Key): int {
    match k
    case WorkSessionMinutes => 5
    case BreakSessionMinutes => 1
    case LongBreakMinutes => 10
    case SessionsUntilLongBreak => 2
  }

  /** Every setting is at least its floor. */
  predicate AboveFloors(s: Record) {
    Complete(s) && forall k: Key :: s[k] >= Floor(k)
  }

  /** The record used when storage holds nothing. */
  function DefaultState(): (s: Record)
    ensures AboveFloors(s)
  {
    var s := map[BreakSessionMinutes := 5, WorkSessionMinutes := 25, LongBreakMinutes := 30, SessionsUntilLongBreak := 4];
    FourKeysComplete(s);
    s
  }

  /** A record is complete as soon as it names the four keys. */
  lemma FourKeysComplete(s: Record)
    requires WorkSessionMinutes in s && BreakSessionMinutes in s
    requires LongBreakMinutes in s && SessionsUntilLongBreak in s
    ensures Complete(s)
  {
    forall k: Key ensures k in s {
      match k
      case WorkSessionMinutes =>
      case BreakSessionMinutes =>
      case LongBreakMinutes =>
      case SessionsUntilLongBreak =>
    }
  }

  /**
   * `getState`: `state[key] || null`. A stored 0 is falsy, so it reads as
   * null (None); every other value is returned as it is.
   */
  function GetStateOf(s: Record, k: Key): (r: Option<int>)
    requires Complete(s)
    ensures r == None <==> s[k] == 0
    ensures r.GetOr(0) == s[k]
  {
    if s[k] != 0 then Some(s[k]) else None
  }

  /** `setState`: the record with one key replaced. */
  function SetStateOf(s: Record, k: Key, v: int): (r: Record)
    requires Complete(s)
    ensures Complete(r) && r[k] == v
    ensures forall j :: j != k ==> r[j] == s[j]
  {
    s[k := v]
  }

  /** The record after `incrementState(k)`. */
  function Incremented(s: Record, k: Key): (r: Record)
    requires Complete(s)
    ensures Complete(r) && r[k] == s[k] + 1
    ensures forall j :: j != k ==> r[j] == s[j]
  {
    SetStateOf(s, k, s[k] + 1)
  }

  /** What `decrementState` returns, together with the record it leaves. */
  datatype Reply = Reply(returned: int, state: Record)

  /**
   * `decrementState(k, minimum)`: at or below the minimum the record is kept
   * and -1 is returned; otherwise the key drops by one and its new value is
   * returned.
   */
  function Decremented(s: Record, k: Key, minimum: int): (r: Reply)
    requires Complete(s)
    ensures Complete(r.state)
    ensures r.state[k] == if s[k] <= minimum then s[k] else s[k] - 1
    ensures forall j :: j != k ==> r.state[j] == s[j]
    ensures r.returned == if s[k] <= minimum then -1 else r.state[k]
  {
    if s[k] <= minimum then
      Reply(-1, s)
    else
      var t := SetStateOf(s, k, s[k] - 1);
      Reply(t[k], t)
  }

  /** A refused decrement leaves the whole record as it was. */
  lemma RefusedDecrementKeepsRecord(s: Record, k: Key, minimum: int)
    requires Complete(s) && s[k] <= minimum
    ensures Decremented(s, k, minimum) == Reply(-1, s)
  {
  }

  /** A decrement never takes a value that is at or above the minimum below it. */
  lemma DecrementNeverCrossesMinimum(s: Record, k: Key, minimum: int)
    requires Complete(s) && s[k] >= minimum
    ensures Decremented(s, k, minimum).state[k] >= minimum
    ensures s[k] == minimum + 1 ==> Decremented(s, k, minimum) == Reply(minimum, s[k := minimum])
  {
  }

  /**
   * The sentinel is unambiguous for every minimum of 0 or more (all four
   * floors are): -1 comes back exactly when the decrement was refused.
   */
  lemma SentinelMeansRefused(s: Record, k: Key, minimum: int)
    requires Complete(s) && minimum >= 0
    ensures Decremented(s, k, minimum).returned == -1 <==> s[k] <= minimum
  {
  }

  /** Increment followed by decrement restores the record and returns the old value. */
  lemma IncrementThenDecrementRestores(s: Record, k: Key, minimum: int)
    requires Complete(s) && s[k] >= minimum
    ensures Decremented(Incremented(s, k), k, minimum) == Reply(s[k], s)
  {
    var up := Incremented(s, k);
    var down := Decremented(up, k, minimum).state;
    assert down.Keys == s.Keys by {
      forall j: Key ensures j in down && j in s { }
    }
    assert forall j :: j in s ==> down[j] == s[j];
  }

  /** Both buttons of every setting keep all four settings at or above their floors. */
  lemma ButtonsKeepFloors(s: Record, k: Key)
    requires AboveFloors(s)
    ensures AboveFloors(Incremented(s, k))
    ensures AboveFloors(Decremented(s, k, Floor(k)).state)
  {
    var up := Incremented(s, k);
    var down := Decremented(s, k, Floor(k)).state;
    forall j: Key ensures up[j] >= Floor(j) && down[j] >= Floor(j) {
      assert s[j] >= Floor(j);
    }
  }

  /** The store returned by `createApp`. */
  class Settings {
    /** The in-memory settings record, mutated in place. */
    var state: Record
    /** The last record written to browser storage (None when nothing is stored). */
    var persisted: Option<Record>

    ghost predicate Valid()
      reads this
    {
      Complete(state)
    }

    /** `getCachedState() || defaultState`: a stored record wins over the defaults. */
    constructor (cached: Option<Record>)
      requires cached.Some? ==> Complete(cached.value)
      ensures Valid()
      ensures state == if cached.Some? then cached.value else DefaultState()
      ensures persisted == cached
    {
      state := if cached.Some? then cached.value else DefaultState();
      persisted := cached;
    }

    /** `getState(key)`. */
    function GetState(k: Key): (r: Option<int>)
      reads this
      requires Valid()
      ensures r.GetOr(0) == state[k]
      ensures r.None? <==> state[k] == 0
    {
      GetStateOf(state, k)
    }

    /** `cacheState`: the whole record is written over the stored one. */
    method CacheState()
      modifies this`persisted
      ensures persisted == Some(state)
    {
      persisted := Some(state);
    }

    /** `setState`: replace one key, write through, answer the stored value. */
    method SetState(k: Key, v: int) returns (r: int)
      requires Valid()
      modifies this
      ensures Valid()
      ensures state == SetStateOf(old(state), k, v)
      ensures persisted == Some(state)
      ensures r == v
    {
      state := state[k := v];
      CacheState();
      r := state[k];
    }

    /** `incrementState`: one more, written through; answers the new value. */
    method IncrementState(k: Key) returns (r: int)
      requires Valid()
      modifies this
      ensures Valid()
      ensures state == Incremented(old(state), k)
      ensures persisted == Some(state)
      ensures r == state[k] == old(state)[k] + 1
    {
      r := SetState(k, state[k] + 1);
    }

    /**
     * `decrementState`: refused at or below `minimum` (the user is alerted and
     * -1 is returned, nothing is written); otherwise one less, written through.
     */
    method DecrementState(k: Key, minimum: int) returns (r: int)
      requires Valid()
      modifies this
      ensures Valid()
      ensures state == Decremented(old(state), k, minimum).state
      ensures r == Decremented(old(state), k, minimum).returned
      ensures persisted == if old(state)[k] <= minimum then old(persisted) else Some(state)
    {
      if state[k] <= minimum {
        r := -1;
      } else {
        r := SetState(k, state[k] - 1);
      }
    }

    /**
     * The four `decrement...` entry points: `decrementState` with the key's
     * floor, so settings that start at or above their floors stay there.
     */
    method DecrementSetting(k: Key) returns (r: int)
      requires Valid()
      modifies this
      ensures Valid()
      ensures state == Decremented(old(state), k, Floor(k)).state
      ensures r == Decremented(old(state), k, Floor(k)).returned
      ensures persisted == if old(state)[k] <= Floor(k) then old(persisted) else Some(state)
      ensures old(AboveFloors(state)) ==> AboveFloors(state)
    {
      ghost var before := state;
      r := DecrementState(k, Floor(k));
      if AboveFloors(before) {
        ButtonsKeepFloors(before, k);
      }
    }
  }
}
