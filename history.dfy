/** `LocationHistory`: a per-user, bounded, first-in-first-out buffer of the
    location events already seen. Each user's buffer behaves like Python's
    `deque(maxlen=max_history)`: appending to a full buffer drops its oldest
    event. */
module History {
  import opened Events

  /** The capacity the fraud detector gives its history. */
  const MaxHistory: nat := 50

  /** The last `n` elements of `s` (all of `s` when it is shorter). */
  function LastN<T>(s: seq<T>, n: nat): (r: seq<T>)
    ensures |r| == if |s| <= n then |s| else n
    ensures r == s[|s| - |r|..]
  {
    if |s| <= n then s else s[|s| - n..]
  }

  /** `deque(maxlen=maxLen).append(e)` on a deque holding `s`. */
  function DequeAppend<T>(s: seq<T>, e: T, maxLen: nat): (r: seq<T>)
    ensures |r| <= maxLen
    ensures |s| < maxLen ==> r == s + [e]
    ensures 0 < maxLen <= |s| ==> |r| == maxLen
    ensures 0 < maxLen == |s| ==> r == s[1..] + [e]
    ensures maxLen > 0 ==> r[|r| - 1] == e
  {
    LastN(s + [e], maxLen)
  }

  /** Appending several events one after another. */
  function AppendAll<T>(s: seq<T>, es: seq<T>, maxLen: nat): seq<T>
    decreases |es|
  {
    if es == [] then s else AppendAll(DequeAppend(s, es[0], maxLen), es[1..], maxLen)
  }

  /** Trimming to the last `n` and then extending is the same as extending
      and then trimming. */
  lemma LastNThenAppend<T>(t: seq<T>, e: T, n: nat)
    ensures LastN(LastN(t, n) + [e], n) == LastN(t + [e], n)
  {
    var u := LastN(t, n);
    var a, b := LastN(u + [e], n), LastN(t + [e], n);
    assert |a| == |b|;
    forall k | 0 <= k < |a|
      ensures a[k] == b[k]
    {
      if k == |a| - 1 {
      } else {
        assert a[k] == (u + [e])[|u| + 1 - |a| + k];
        assert b[k] == (t + [e])[|t| + 1 - |b| + k];
      }
    }
  }

  /** However many events are appended, the buffer holds exactly the last
      `maxLen` of all events in arrival order: nothing is reordered and only
      the oldest events are dropped. */
  lemma {:induction false} AppendAllKeepsNewest<T>(s: seq<T>, es: seq<T>, maxLen: nat)
    requires |s| <= maxLen
    ensures AppendAll(s, es, maxLen) == LastN(s + es, maxLen)
    decreases |es|
  {
    if es == [] {
      assert s + es == s;
    } else {
      var e, rest := es[0], es[1..];
      var s' := LastN(s + [e], maxLen);
      calc {
        AppendAll(s, es, maxLen);
        AppendAll(s', rest, maxLen);
        { AppendAllKeepsNewest(s', rest, maxLen); }
        LastN(s' + rest, maxLen);
        { AppendAllTrimmed(s + [e], rest, maxLen); }
        LastN((s + [e]) + rest, maxLen);
        { assert (s + [e]) + rest == s + es; }
        LastN(s + es, maxLen);
      }
    }
  }

  /** Extending a sequence trimmed to its last `n` and trimming again gives
      what trimming the untrimmed extension gives. */
  lemma {:induction false} AppendAllTrimmed<T>(t: seq<T>, u: seq<T>, n: nat)
    ensures LastN(LastN(t, n) + u, n) == LastN(t + u, n)
    decreases |u|
  {
    if u == [] {
      assert LastN(t, n) + u == LastN(t, n);
      assert t + u == t;
    } else {
      var x := u[|u| - 1];
      var v := u[..|u| - 1];
      assert u == v + [x];
      AppendAllTrimmed(t, v, n);
      assert LastN(t, n) + u == (LastN(t, n) + v) + [x];
      assert t + u == (t + v) + [x];
      LastNThenAppend(LastN(t, n) + v, x, n);
      LastNThenAppend(t + v, x, n);
    }
  }

  /** Python's slice start for `xs[i:]` on a list of length `len`. */
  function SliceStart(i: int, len: nat): nat
  {
    if i < 0 then (if i + len < 0 then 0 else i + len)
    else if i > len then len
    else i
  }

  /** `list(locations)[-count:]`. For a positive `count` this is the last
      `count` events; Python's slicing also makes `count == 0` return the
      whole history and a negative `count` drop a prefix. */
  function Recent<T>(s: seq<T>, count: int): (r: seq<T>)
    ensures |r| <= |s| && r == s[|s| - |r|..]
    ensures count > 0 ==> |r| == if count <= |s| then count else |s|
    ensures count == 0 ==> r == s
    ensures count < 0 ==> |r| == if |s| + count < 0 then 0 else |s| + count
  {
    s[SliceStart(-count, |s|)..]
  }

  /** Replacing one buffer by one within the bound keeps every buffer
      within the bound. */
  lemma BoundSurvivesUpdate(m: map<string, seq<LocationEvent>>, userId: string, buffer: seq<LocationEvent>,
                            bound: nat, updated: map<string, seq<LocationEvent>>)
    requires forall u :: u in m ==> |m[u]| <= bound
    requires |buffer| <= bound && updated == m[userId := buffer]
    ensures forall u :: u in updated ==> |updated[u]| <= bound
  {
  }

  class LocationHistory {
    const maxHistory: nat
    var userLocations: map<string, seq<LocationEvent>>

    /** No user's buffer exceeds the capacity. */
    ghost predicate Valid()
      reads this
    {
      forall u :: u in userLocations ==> |userLocations[u]| <= maxHistory
    }

    /** The buffer of `userId`, empty for a user never seen. */
    function Locations(userId: string): (r: seq<LocationEvent>)
      reads this
      ensures Valid() ==> |r| <= maxHistory
    {
      if userId in userLocations then userLocations[userId] else []
    }

    constructor (maxHistory: nat)
      ensures Valid()
      ensures this.maxHistory == maxHistory && userLocations == map[]
    {
      this.maxHistory := maxHistory;
      userLocations := map[];
    }

    /** `add_location`: appends to the user's buffer, evicting the oldest
        event of a full buffer; other users' buffers are untouched. */
    method AddLocation(userId: string, event: LocationEvent)
      requires Valid()
      modifies this
      ensures Valid()
      ensures userLocations == old(userLocations)[userId := DequeAppend(old(Locations(userId)), event, maxHistory)]
      ensures Locations(userId) == DequeAppend(old(Locations(userId)), event, maxHistory)
      ensures forall u :: u != userId ==> Locations(u) == old(Locations(u))
    {
      var buffer := DequeAppend(Locations(userId), event, maxHistory);
      var updated := userLocations[userId := buffer];
      BoundSurvivesUpdate(userLocations, userId, buffer, maxHistory, updated);
      userLocations := updated;
    }

    /** `get_recent_locations`: the newest `count` events of the user in
        arrival order (see `Recent` for `count <= 0`); empty for an unknown
        user. Being a function, it changes no buffer. */
    function GetRecentLocations(userId: string, count: int): (r: seq<LocationEvent>)
      reads this
      requires Valid()
      ensures userId !in userLocations ==> r == []
      ensures |r| <= |Locations(userId)| && r == Locations(userId)[|Locations(userId)| - |r|..]
      ensures count > 0 ==> |r| == if count <= |Locations(userId)| then count else |Locations(userId)|
    {
      Recent(Locations(userId), count)
    }
  }
}
