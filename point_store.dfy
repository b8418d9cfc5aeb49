/**
 * The map's point store in the web UI. A change of the visible bounds
 * asks the server for the points inside them; at most one such fetch is
 * in flight, and bounds changes that arrive meanwhile are coalesced into
 * a single pending query, the newest one winning. Each answer stores the
 * points of one part of the map, and the view reads the concatenation of
 * all parts.
 */
module PointStore {
  import opened Wrappers

  /** The visible rectangle of the map. */
  datatype Bounds = Bounds(south: real, west: real, north: real, east: real)

  /** The vertical and horizontal resolution the view asks for. */
  datatype Definitions = Definitions(vertDef: real, horizDef: real)

  datatype Query = Query(bounds: Bounds, definitions: Definitions)

  /** A weighted point as the map draws it. */
  datatype MapPoint = MapPoint(lat: real, lng: real, weight: real, key: string)

  datatype Status = OK | KO

  /** The actions the store reacts to; any other action type is ignored. */
  datatype Action =
    | ChangeBounds(bounds: Bounds, definitions: Definitions)
    | UpdateData(status: Status, part: nat, data: seq<MapPoint>)
    | Other

  /**
   * A value snapshot of the store: the query flags, the parts received so
   * far, the fetches sent to the server and the change notifications sent
   * to the views.
   */
  datatype StoreState = StoreState(queryInProgress: bool, nextQuery: Option<Query>,
                                   parts: map<nat, seq<MapPoint>>, fetched: seq<Query>,
                                   changesEmitted: nat)

  const Initial := StoreState(false, None, map[], [], 0)

  /** A pending query is only ever kept while a fetch is in flight. */
  predicate Coherent(s: StoreState)
  {
    s.nextQuery.Some? ==> s.queryInProgress
  }

  /** The reaction of the store to one dispatched action. */
  function Dispatch(s: StoreState, a: Action): (t: StoreState)
    // a bounds change while idle sends exactly one fetch, for those bounds
    ensures a.ChangeBounds? && !s.queryInProgress ==>
      t.fetched == s.fetched + [Query(a.bounds, a.definitions)] && t.queryInProgress
      && t.nextQuery == s.nextQuery && t.parts == s.parts && t.changesEmitted == s.changesEmitted
    // a bounds change while busy sends nothing and replaces the pending query
    ensures a.ChangeBounds? && s.queryInProgress ==>
      t.fetched == s.fetched && t.queryInProgress
      && t.nextQuery == Some(Query(a.bounds, a.definitions)) && t.parts == s.parts
      && t.changesEmitted == s.changesEmitted
    // an OK answer replaces its part and notifies the views; a KO one changes no part
    ensures a.UpdateData? ==>
      t.parts == (if a.status == OK then s.parts[a.part := a.data] else s.parts)
      && t.changesEmitted == s.changesEmitted + (if a.status == OK then 1 else 0)
    // an answer sends the pending query, if any, and clears it
    ensures a.UpdateData? ==>
      t.nextQuery == None
      && t.fetched == s.fetched + (if s.nextQuery.Some? then [s.nextQuery.value] else [])
    // after an answer the store is busy exactly when it has just sent a fetch
    ensures a.UpdateData? && Coherent(s) ==> (t.queryInProgress <==> s.nextQuery.Some?)
    ensures a.Other? ==> t == s
    ensures Coherent(s) ==> Coherent(t)
  {
    match a
    case ChangeBounds(bounds, definitions) =>
      var q := Query(bounds, definitions);
      if s.queryInProgress then s.(nextQuery := Some(q))
      else s.(queryInProgress := true, fetched := s.fetched + [q])
    case UpdateData(status, part, data) =>
      var s1 := if status == OK
        then s.(parts := s.parts[part := data], changesEmitted := s.changesEmitted + 1)
        else s;
      if s1.nextQuery.Some? then s1.(fetched := s1.fetched + [s1.nextQuery.value], nextQuery := None)
      else s1.(queryInProgress := false)
    case Other => s
  }

  function Run(s: StoreState, actions: seq<Action>): StoreState
    decreases |actions|
  {
    if actions == [] then s else Run(Dispatch(s, actions[0]), actions[1..])
  }

  /**
   * Bounds changes that arrive while a fetch is in flight send nothing, and
   * only the newest of them is kept.
   */
  lemma {:induction false} LatestBoundsWin(s: StoreState, actions: seq<Action>)
    requires s.queryInProgress && |actions| > 0
    requires forall i :: 0 <= i < |actions| ==> actions[i].ChangeBounds?
    ensures Run(s, actions).fetched == s.fetched
    ensures Run(s, actions).parts == s.parts
    ensures Run(s, actions).queryInProgress
    ensures Run(s, actions).nextQuery
            == Some(Query(actions[|actions| - 1].bounds, actions[|actions| - 1].definitions))
    decreases |actions|
  {
    var t := Dispatch(s, actions[0]);
    if |actions| > 1 {
      LatestBoundsWin(t, actions[1..]);
    }
  }

  // ---------------------------------------------------------------------
  // One fetch in flight

  /**
   * The store together with the number of fetches the server has not yet
   * answered. The server answers each fetch with one update (the map is
   * fetched as a single part), so an update only arrives while a fetch is
   * outstanding.
   */
  datatype World = World(store: StoreState, inFlight: nat)

  predicate CanHappen(w: World, a: Action)
  {
    a.UpdateData? ==> w.inFlight > 0
  }

  function Step(w: World, a: Action): World
    requires CanHappen(w, a)
  {
    var t := Dispatch(w.store, a);
    var answered := if a.UpdateData? then 1 else 0;
    World(t, w.inFlight - answered + (|t.fetched| - |w.store.fetched|))
  }

  /** Exactly one fetch is outstanding while the store is busy, and none otherwise. */
  predicate OneInFlight(w: World)
  {
    Coherent(w.store) && w.inFlight == (if w.store.queryInProgress then 1 else 0)
  }

  lemma {:induction false} StepKeepsOneInFlight(w: World, a: Action)
    requires OneInFlight(w) && CanHappen(w, a)
    ensures OneInFlight(Step(w, a))
    ensures Step(w, a).inFlight <= 1
  {
    var t := Dispatch(w.store, a);
    match a
    case ChangeBounds(_, _) =>
      assert |t.fetched| - |w.store.fetched| == (if w.store.queryInProgress then 0 else 1);
    case UpdateData(_, _, _) =>
      assert |t.fetched| - |w.store.fetched| == (if w.store.nextQuery.Some? then 1 else 0);
    case Other =>
  }

  predicate CanRun(w: World, actions: seq<Action>)
    decreases |actions|
  {
    actions == [] || (CanHappen(w, actions[0]) && CanRun(Step(w, actions[0]), actions[1..]))
  }

  function RunWorld(w: World, actions: seq<Action>): World
    requires CanRun(w, actions)
    decreases |actions|
  {
    if actions == [] then w else RunWorld(Step(w, actions[0]), actions[1..])
  }

  /**
   * Whatever the sequence of bounds changes and answers, a store with one
   * fetch outstanding while busy keeps that property.
   */
  lemma {:induction false} OneInFlightIsKept(w: World, actions: seq<Action>)
    requires OneInFlight(w) && CanRun(w, actions)
    ensures OneInFlight(RunWorld(w, actions))
    ensures RunWorld(w, actions).inFlight <= 1
    decreases |actions|
  {
    if actions != [] {
      StepKeepsOneInFlight(w, actions[0]);
      OneInFlightIsKept(Step(w, actions[0]), actions[1..]);
    }
  }

  /**
   * From the initial store, never more than one fetch is outstanding, and
   * the store is busy exactly when one is.
   */
  lemma AtMostOneFetchInFlight(actions: seq<Action>)
    requires CanRun(World(Initial, 0), actions)
    ensures RunWorld(World(Initial, 0), actions).inFlight
            == (if RunWorld(World(Initial, 0), actions).store.queryInProgress then 1 else 0)
  {
    OneInFlightIsKept(World(Initial, 0), actions);
  }

  // ---------------------------------------------------------------------
  // Reading the parts

  /**
   * The points of the parts numbered below n, in increasing part order:
   * the order in which a for-in loop visits integer keys.
   */
  ghost function Below(parts: map<nat, seq<MapPoint>>, n: nat): seq<MapPoint>
  {
    if n == 0 then [] else Below(parts, n - 1) + (if n - 1 in parts then parts[n - 1] else [])
  }

  /** A bound above every part number. */
  ghost function KeyBound(keys: set<nat>): (b: nat)
    ensures forall k :: k in keys ==> k < b
    decreases keys
  {
    if keys == {} then 0
    else
      var k :| k in keys;
      var rest := KeyBound(keys - {k});
      assert forall j :: j in keys ==> j == k || j in keys - {k};
      if k + 1 > rest then k + 1 else rest
  }

  /** Every part's points, in increasing part order. */
  ghost function Concatenation(parts: map<nat, seq<MapPoint>>): seq<MapPoint>
  {
    Below(parts, KeyBound(parts.Keys))
  }

  /** Part numbers from a up to b that hold no part add nothing. */
  lemma {:induction false} BelowSkip(parts: map<nat, seq<MapPoint>>, a: nat, b: nat)
    requires a <= b
    requires forall k :: a <= k < b ==> k !in parts
    ensures Below(parts, b) == Below(parts, a)
    decreases b
  {
    if b > a {
      BelowSkip(parts, a, b - 1);
    }
  }

  /** A point is read exactly when some part holds it. */
  lemma {:induction false} BelowHoldsExactlyTheParts(parts: map<nat, seq<MapPoint>>, n: nat, p: MapPoint)
    ensures p in Below(parts, n) <==> exists k :: k in parts && k < n && p in parts[k]
    decreases n
  {
    if n > 0 {
      BelowHoldsExactlyTheParts(parts, n - 1, p);
      if n - 1 in parts && p in parts[n - 1] {
        assert p in Below(parts, n);
      }
    }
  }

  lemma ConcatenationHoldsExactlyTheParts(parts: map<nat, seq<MapPoint>>, p: MapPoint)
    ensures p in Concatenation(parts) <==> exists k :: k in parts && p in parts[k]
  {
    BelowHoldsExactlyTheParts(parts, KeyBound(parts.Keys), p);
  }

  /** With one part, reading gives back exactly its points. */
  lemma {:induction false} SinglePart(part: nat, data: seq<MapPoint>)
    ensures Concatenation(map[part := data]) == data
  {
    var parts := map[part := data];
    var b := KeyBound(parts.Keys);
    assert part in parts.Keys;
    BelowSkip(parts, part + 1, b);
    BelowSkip(parts, 0, part);
  }

  // ---------------------------------------------------------------------
  // The store object

  class PointStore {
    var queryInProgress: bool
    var nextQuery: Option<Query>
    var state: map<nat, seq<MapPoint>>
    /** The queries sent to the server, oldest first. */
    var fetched: seq<Query>
    var changesEmitted: nat

    function Snapshot(): StoreState
      reads this
    {
      StoreState(queryInProgress, nextQuery, state, fetched, changesEmitted)
    }

    ghost predicate Valid()
      reads this
    {
      Coherent(Snapshot())
    }

    constructor ()
      ensures Snapshot() == Initial && Valid()
    {
      queryInProgress := false;
      nextQuery := None;
      state := map[];
      fetched := [];
      changesEmitted := 0;
    }

    method OnDispatch(action: Action)
      requires Valid()
      modifies this
      ensures Snapshot() == Dispatch(old(Snapshot()), action)
      ensures Valid()
    {
      match action {
        case ChangeBounds(bounds, definitions) =>
          if queryInProgress {
            nextQuery := Some(Query(bounds, definitions));
          } else {
            queryInProgress := true;
            fetched := fetched + [Query(bounds, definitions)];
          }
        case UpdateData(status, part, data) =>
          if status == OK {
            ChangeState(part, data);
            changesEmitted := changesEmitted + 1;
          }
          if nextQuery.Some? {
            fetched := fetched + [nextQuery.value];
            nextQuery := None;
          } else {
            queryInProgress := false;
          }
        case Other =>
      }
    }

    /** Getting data: every part's points, in increasing part order; nothing changes. */
    method GetData() returns (arr: seq<MapPoint>)
      ensures arr == Concatenation(state)
    {
      arr := [];
      var remaining := state.Keys;
      ghost var next: nat := 0;
      while remaining != {}
        invariant remaining <= state.Keys
        invariant forall k :: k in remaining ==> next <= k
        invariant forall k :: k in state && k !in remaining ==> k < next
        invariant arr == Below(state, next)
        decreases remaining
      {
        var e :| e in remaining && forall k :: k in remaining ==> e <= k by {
          LeastExists(remaining);
        }
        BelowSkip(state, next, e);
        arr := arr + state[e];
        remaining := remaining - {e};
        next := e + 1;
      }
      var b := KeyBound(state.Keys);
      if next <= b {
        BelowSkip(state, next, b);
      } else {
        BelowSkip(state, b, next);
      }
    }

    /** Storing a part replaces that part only. */
    method ChangeState(part: nat, data: seq<MapPoint>)
      modifies this`state
      ensures state == old(state)[part := data]
      ensures part in state && state[part] == data
      ensures forall k :: k != part && k in old(state) ==> k in state && state[k] == old(state)[k]
    {
      state := state[part := data];
    }
  }

  /** A non-empty set of part numbers has a least element. */
  lemma {:induction false} LeastExists(keys: set<nat>)
    requires keys != {}
    ensures exists e :: e in keys && forall k :: k in keys ==> e <= k
    decreases keys
  {
    var x :| x in keys;
    if keys - {x} != {} {
      LeastExists(keys - {x});
      var e :| e in keys - {x} && forall k :: k in keys - {x} ==> e <= k;
      assert forall k :: k in keys ==> k == x || k in keys - {x};
      if x < e {
        assert forall k :: k in keys ==> x <= k;
      } else {
        assert forall k :: k in keys ==> e <= k;
      }
    } else {
      assert keys == {x};
    }
  }
}
