/** Key flow sharing (routeKeyer in engine/src/engine/engine.cpp): keyers routed to the same flow share one
    reader; each distinct flow on a keyer has one of as many slots as there are keyers. */
module KeyFlows {
  import opened Sets

  datatype Route = Route(domain: string, flow: string)

  const NO_ROUTE := Route("", "")

  ghost predicate Used(keySlot: seq<int>, s: int) {
    exists k :: 0 <= k < |keySlot| && keySlot[k] == s
  }

  /** Keyers `keySlot` on slots reading `video`, as each was routed last: `wanted` with no flow is unrouted. */
  ghost predicate Fits(keySlot: seq<int>, video: seq<Route>, wanted: seq<Route>) {
    && |keySlot| == |video| == |wanted|
    && (forall k :: 0 <= k < |keySlot| ==> if wanted[k].flow == "" then keySlot[k] == -1 else 0 <= keySlot[k] < |video| && video[keySlot[k]] == wanted[k])
    && (forall s :: 0 <= s < |video| && !Used(keySlot, s) ==> video[s] == NO_ROUTE)
    && (forall s, t :: 0 <= s < |video| && 0 <= t < |video| && s != t && Used(keySlot, s) && Used(keySlot, t) ==> video[s] != video[t])
  }

  /** Two routed keyers share a slot exactly when they were routed to the same flow; a used slot reads its
      keyers' flow and an unused one nothing. */
  lemma SharedExactly(keySlot: seq<int>, video: seq<Route>, wanted: seq<Route>, a: nat, b: nat)
    requires Fits(keySlot, video, wanted) && a < |keySlot| && b < |keySlot|
    ensures wanted[a].flow != "" && wanted[b].flow != "" ==> (keySlot[a] == keySlot[b] <==> wanted[a] == wanted[b])
    ensures wanted[a].flow != "" ==> 0 <= keySlot[a] < |video| && video[keySlot[a]] == wanted[a]
    ensures forall s :: 0 <= s < |video| ==> (video[s].flow != "" <==> Used(keySlot, s))
  {
    if wanted[a].flow != "" && wanted[b].flow != "" {
      assert Used(keySlot, keySlot[a]) && Used(keySlot, keySlot[b]);
    }
    forall s | 0 <= s < |video| && Used(keySlot, s) ensures video[s].flow != "" {
      var k :| 0 <= k < |keySlot| && keySlot[k] == s;
    }
  }

  function SlotsOf(keySlot: seq<int>): (r: set<int>)
    ensures forall s :: s in r <==> s >= 0 && s in keySlot
    ensures |r| <= |keySlot| && (forall k :: 0 <= k < |keySlot| && keySlot[k] < 0 ==> |r| < |keySlot|)
  {
    if |keySlot| == 0 then {}
    else
      var rest := SlotsOf(keySlot[1..]);
      assert forall k :: 1 <= k < |keySlot| ==> keySlot[k] == keySlot[1..][k - 1];
      if keySlot[0] >= 0 then rest + {keySlot[0]} else rest
  }

  /** A keyer without a slot leaves one free. */
  lemma OneIsFree(keySlot: seq<int>, k: nat)
    requires k < |keySlot| && keySlot[k] == -1
    ensures exists s :: 0 <= s < |keySlot| && !Used(keySlot, s)
  {
    if forall s :: 0 <= s < |keySlot| ==> Used(keySlot, s) {
      var all, used := Below(|keySlot|), SlotsOf(keySlot);
      forall s | s in all ensures s in used {
        assert Used(keySlot, s);
      }
      SmallerSet(all, used);
    }
  }

  /** Keyer k leaves its slot, which is closed if it was the last one there. */
  lemma LeavingFits(keySlot: seq<int>, video: seq<Route>, wanted: seq<Route>, k: nat, none: Route)
    requires Fits(keySlot, video, wanted) && k < |keySlot| && none.flow == ""
    ensures var left := keySlot[k := -1];
            Fits(left, if keySlot[k] >= 0 && !Used(left, keySlot[k]) then video[keySlot[k] := NO_ROUTE] else video, wanted[k := none])
  {
    var left := keySlot[k := -1];
    forall s | s != keySlot[k] && s >= 0 ensures Used(left, s) == Used(keySlot, s) {
      forall i | 0 <= i < |keySlot| && keySlot[i] == s ensures left[i] == s {
      }
    }
    forall s | s >= 0 && Used(left, s) ensures Used(keySlot, s) {
    }
    forall i | 0 <= i < |left| && left[i] == keySlot[k] >= 0 ensures Used(left, keySlot[k]) {
    }
  }

  lemma StillUsed(keySlot: seq<int>, k: nat)
    requires k < |keySlot|
    ensures forall s :: s >= 0 && Used(keySlot[k := -1], s) ==> Used(keySlot, s)
  {
    forall i | 0 <= i < |keySlot| && keySlot[k := -1][i] >= 0 ensures keySlot[i] == keySlot[k := -1][i] {
    }
  }

  lemma Joined(keySlot: seq<int>, k: nat, slot: int)
    requires k < |keySlot| && keySlot[k] == -1 && slot >= 0
    ensures forall s :: s >= 0 ==> (Used(keySlot[k := slot], s) <==> Used(keySlot, s) || s == slot)
  {
    var now := keySlot[k := slot];
    assert now[k] == slot;
    forall s | s >= 0 ensures Used(now, s) <==> Used(keySlot, s) || s == slot {
      if Used(keySlot, s) {
        var i :| 0 <= i < |keySlot| && keySlot[i] == s;
        assert now[i] == s;
      }
      if Used(now, s) && s != slot {
        var i :| 0 <= i < |now| && now[i] == s;
        assert keySlot[i] == s;
      }
    }
  }

  lemma JoiningFits(keySlot: seq<int>, video: seq<Route>, wanted: seq<Route>, k: nat, slot: int, route: Route)
    requires Fits(keySlot, video, wanted) && k < |keySlot| && keySlot[k] == -1 && route.flow != "" && 0 <= slot < |video|
    requires if Used(keySlot, slot) then video[slot] == route else forall s :: 0 <= s < |video| && Used(keySlot, s) ==> video[s] != route
    ensures Fits(keySlot[k := slot], video[slot := route], wanted[k := route])
  {
    Joined(keySlot, k, slot);
    forall i | 0 <= i < |keySlot| && keySlot[i] >= 0 ensures Used(keySlot, keySlot[i]) {
    }
    var now, read := keySlot[k := slot], video[slot := route];
    forall s, t | 0 <= s < |video| && 0 <= t < |video| && s != t && Used(now, s) && Used(now, t) ensures read[s] != read[t] {
      if s != slot && t != slot {
        assert Used(keySlot, s) && Used(keySlot, t);
      } else if s == slot {
        assert Used(keySlot, t);
      } else {
        assert Used(keySlot, s);
      }
    }
    forall i | 0 <= i < |now|
      ensures if wanted[k := route][i].flow == "" then now[i] == -1 else 0 <= now[i] < |read| && read[now[i]] == wanted[k := route][i]
    {
    }
  }

  class KeyFlows {
    var keySlot: seq<int>
    var video: seq<Route>
    var hasFrames: seq<bool>
    ghost var wanted: seq<Route>

    ghost predicate Valid()
      reads this
    {
      Fits(keySlot, video, wanted) && |hasFrames| == |keySlot|
      && forall s :: 0 <= s < |video| && Used(keySlot, s) ==> hasFrames[s]
    }

    constructor (keyers: nat)
      ensures Valid() && |keySlot| == keyers && wanted == seq(keyers, i => NO_ROUTE)
      ensures forall s :: 0 <= s < keyers ==> !hasFrames[s]
    {
      keySlot := seq(keyers, i => -1);
      video := seq(keyers, i => NO_ROUTE);
      hasFrames := seq(keyers, i => false);
      wanted := seq(keyers, i => NO_ROUTE);
    }

    method Users(s: int) returns (n: nat)
      ensures n > 0 <==> Used(keySlot, s)
    {
      n := 0;
      for k := 0 to |keySlot|
        invariant n > 0 <==> exists i :: 0 <= i < k && keySlot[i] == s
      {
        if keySlot[k] == s {
          n := n + 1;
        }
      }
    }

    /** The slot that reads the flow for another keyer, or -1. */
    method SharedSlot(route: Route) returns (shared: int)
      requires |video| == |keySlot|
      ensures shared == -1 || (0 <= shared < |video| && Used(keySlot, shared) && video[shared] == route)
      ensures shared == -1 ==> forall s :: 0 <= s < |video| && Used(keySlot, s) ==> video[s] != route
    {
      shared := -1;
      for s := 0 to |video|
        invariant shared == -1 || (0 <= shared < s && Used(keySlot, shared) && video[shared] == route)
        invariant shared == -1 ==> forall t :: 0 <= t < s && Used(keySlot, t) ==> video[t] != route
      {
        var n := Users(s);
        if n > 0 && video[s] == route {
          shared := s;
        }
      }
    }

    /** A slot no keyer uses, one with frames if there is one. */
    method FreeSlot(k: nat) returns (slot: int)
      requires k < |keySlot| == |video| == |hasFrames| && keySlot[k] == -1
      ensures 0 <= slot < |video| && !Used(keySlot, slot)
      ensures !hasFrames[slot] ==> forall s :: 0 <= s < |video| && hasFrames[s] ==> Used(keySlot, s)
    {
      slot := -1;
      var s := 0;
      while s < |video| && slot < 0
        invariant 0 <= s <= |video|
        invariant slot == -1 || (0 <= slot < |video| && !Used(keySlot, slot) && hasFrames[slot])
        invariant slot == -1 ==> forall t :: 0 <= t < s && hasFrames[t] ==> Used(keySlot, t)
      {
        var n := Users(s);
        if n == 0 && hasFrames[s] {
          slot := s;
        }
        s := s + 1;
      }
      OneIsFree(keySlot, k);
      s := 0;
      while s < |video| && slot < 0
        invariant 0 <= s <= |video|
        invariant slot == -1 || (0 <= slot < |video| && !Used(keySlot, slot))
        invariant slot == -1 || hasFrames[slot] || forall t :: 0 <= t < |video| && hasFrames[t] ==> Used(keySlot, t)
        invariant slot == -1 ==> forall t :: 0 <= t < s ==> Used(keySlot, t)
        invariant slot == -1 ==> forall t :: 0 <= t < |video| && hasFrames[t] ==> Used(keySlot, t)
      {
        var n := Users(s);
        if n == 0 {
          slot := s;
        }
        s := s + 1;
      }
    }

    /** Another reader of the flow, if any, before keyer k's own slot is closed when no keyer is left on it. */
    method LeaveSlot(k: nat, route: Route) returns (shared: int)
      requires Valid() && k < |keySlot|
      modifies this`keySlot, this`video, this`wanted
      ensures Valid() && keySlot == old(keySlot)[k := -1] && wanted == old(wanted)[k := if route.flow == "" then route else NO_ROUTE]
      ensures shared == -1 || (0 <= shared < |video| && Used(keySlot, shared) && video[shared] == route)
      ensures shared == -1 && route.flow != "" ==> forall s :: 0 <= s < |video| && Used(keySlot, s) ==> video[s] != route
    {
      ghost var none := if route.flow == "" then route else NO_ROUTE;
      LeavingFits(keySlot, video, wanted, k, none);
      StillUsed(keySlot, k);
      var before := keySlot[k];
      keySlot := keySlot[k := -1];
      shared := -1;
      if route.flow != "" {
        shared := SharedSlot(route);
      }
      var n := Users(before);
      if before >= 0 && before != shared && n == 0 {
        video := video[before := NO_ROUTE];
      }
      wanted := wanted[k := none];
    }

    method JoinSlot(k: nat, shared: int, route: Route)
      requires Valid() && k < |keySlot| && keySlot[k] == -1 && route.flow != ""
      requires shared == -1 || (0 <= shared < |video| && Used(keySlot, shared) && video[shared] == route)
      requires shared == -1 ==> forall s :: 0 <= s < |video| && Used(keySlot, s) ==> video[s] != route
      modifies this
      ensures Valid() && wanted == old(wanted)[k := route] && |keySlot| == old(|keySlot|) && keySlot == old(keySlot)[k := keySlot[k]]
      ensures 0 <= keySlot[k] < |hasFrames| && hasFrames == old(hasFrames)[keySlot[k] := true]
      ensures !old(hasFrames)[keySlot[k]] ==> forall s :: 0 <= s < |hasFrames| && old(hasFrames)[s] ==> Used(old(keySlot), s)
    {
      var slot := shared;
      if slot < 0 {
        slot := FreeSlot(k);
      }
      JoiningFits(keySlot, video, wanted, k, slot, route);
      Joined(keySlot, k, slot);
      if !hasFrames[slot] {
        hasFrames := hasFrames[slot := true];
      }
      keySlot := keySlot[k := slot];
      wanted := wanted[k := route];
      if shared < 0 {
        video := video[slot := route];
      }
    }

    /** Keyer k to a flow, or to none: the table fits the new wishes, no other keyer moves, the same flow
        again changes nothing, and a slot is given frames only when every slot with frames is in use. */
    method RouteKeyer(k: int, route: Route) returns (known: bool)
      requires Valid()
      modifies this
      ensures Valid() && known == (1 <= k <= old(|keySlot|))
      ensures wanted == if known then old(wanted)[k - 1 := route] else old(wanted)
      ensures |keySlot| == old(|keySlot|) && forall i :: 0 <= i < |keySlot| && i != k - 1 ==> keySlot[i] == old(keySlot)[i]
      ensures !known || (old(wanted)[k - 1] == route && route.flow != "") ==> keySlot == old(keySlot) && video == old(video) && hasFrames == old(hasFrames)
      ensures |hasFrames| == old(|hasFrames|)
      ensures hasFrames == old(hasFrames) ||
              (forall s :: 0 <= s < |hasFrames| && old(hasFrames)[s] ==> exists i :: 0 <= i < |keySlot| && i != k - 1 && keySlot[i] == s)
    {
      if !(1 <= k <= |keySlot|) {
        return false;
      }
      known := true;
      var before := keySlot[k - 1];
      if before >= 0 && route.flow != "" && video[before] == route {
        wanted := wanted[k - 1 := route];
        return;
      }
      var shared := LeaveSlot(k - 1, route);
      if route.flow == "" {
        return;
      }
      ghost var left := keySlot;
      JoinSlot(k - 1, shared, route);
      if hasFrames != old(hasFrames) {
        forall s | 0 <= s < |hasFrames| && old(hasFrames)[s] ensures exists i :: 0 <= i < |keySlot| && i != k - 1 && keySlot[i] == s {
          var i :| 0 <= i < |left| && left[i] == s;
          assert keySlot[i] == s;
        }
      }
    }
  }
}
