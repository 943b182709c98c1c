/** `SafeAreaContainer.Manager`: the registry of containers and the per-frame
    change check that re-applies the safe area to them. The engine's static
    singleton is an explicit `Manager` object whose `present` field says
    whether the static instance has been created. */
module ContainerManager {
  import opened Geometry
  import opened Container

  /** The engine's `container != null`: a set reference to an object that has
      not been destroyed. */
  predicate IsLive(c: SafeAreaContainer?)
    reads c
    ensures IsLive(c) ==> c != null
  {
    c != null && !c.destroyed
  }

  /** What `Update` checks before dispatching to a non-null entry: not
      destroyed, and active and enabled. */
  predicate Eligible(c: SafeAreaContainer)
    reads c`destroyed, c`isActiveAndEnabled
    ensures Eligible(c) ==> IsLive(c) && c.isActiveAndEnabled
  {
    !c.destroyed && c.isActiveAndEnabled
  }

  /** `List.Remove`: drops the first occurrence of `x`, if any. */
  function RemoveFirst<T(==)>(s: seq<T>, x: T): (r: seq<T>)
    ensures x !in s ==> r == s
    ensures x in s ==> |r| == |s| - 1
  {
    if s == [] then []
    else if s[0] == x then s[1..]
    else [s[0]] + RemoveFirst(s[1..], x)
  }

  /** With `i` the first position of `x`, the entries before it stay in
      place and the ones after it move up by one. */
  lemma {:induction false} RemoveFirstAt<T>(s: seq<T>, x: T, i: nat)
    requires i < |s| && s[i] == x && x !in s[..i]
    ensures RemoveFirst(s, x) == s[..i] + s[i + 1..]
  {
    if i == 0 {
      assert s[..0] + s[1..] == s[1..];
    } else {
      assert s[0] in s[..i];
      var t := s[1..];
      assert t[..i - 1] == s[1..i];
      RemoveFirstAt(t, x, i - 1);
      assert s[..i] == [s[0]] + t[..i - 1];
      assert s[i + 1..] == t[i..];
    }
  }

  /** Removing a present element takes out exactly one copy of it and
      nothing else. */
  lemma {:induction false} RemoveFirstMultiset<T>(s: seq<T>, x: T)
    requires x in s
    ensures multiset(s) == multiset(RemoveFirst(s, x)) + multiset{x}
  {
    assert s == [s[0]] + s[1..];
    if s[0] != x {
      var t := s[1..];
      RemoveFirstMultiset(t, x);
      assert multiset(s) == multiset{s[0]} + multiset(t);
      assert multiset(RemoveFirst(s, x)) == multiset{s[0]} + multiset(RemoveFirst(t, x));
    }
  }

  /** Unregistering a container right after registering it, when it was not
      registered before, restores the list. */
  lemma {:induction false} RemoveFirstAfterAppend<T>(s: seq<T>, x: T)
    requires x !in s
    ensures RemoveFirst(s + [x], x) == s
  {
    if s != [] {
      assert (s + [x])[1..] == s[1..] + [x];
      RemoveFirstAfterAppend(s[1..], x);
    }
  }

  class Manager {
    /** Whether the static instance exists. */
    var present: bool
    /** The safe area of the last frame that dispatched. */
    var lastSafeArea: Rect
    var containers: seq<SafeAreaContainer?>

    constructor (present0: bool)
      ensures present == present0 && lastSafeArea == RectZero && containers == []
    {
      present := present0;
      lastSafeArea := RectZero;
      containers := [];
    }

    /** `RegisterSafeAreaContainer`: appends a live container, duplicates
        included; a null or destroyed container, or no instance, changes
        nothing. */
    method RegisterSafeAreaContainer(container: SafeAreaContainer?)
      modifies this`containers
      ensures IsLive(container) && present ==> containers == old(containers) + [container]
      ensures !(IsLive(container) && present) ==> containers == old(containers)
    {
      if !IsLive(container) {
        return;
      }
      if !present {
        return;
      }
      containers := containers + [container];
    }

    /** `UnregisterSafeAreaContainer`: removes the first occurrence of a live
        container; a null or destroyed container, or no instance, changes
        nothing. */
    method UnregisterSafeAreaContainer(container: SafeAreaContainer?)
      modifies this`containers
      ensures IsLive(container) && present ==> containers == RemoveFirst(old(containers), container)
      ensures !(IsLive(container) && present) ==> containers == old(containers)
    {
      if !IsLive(container) {
        return;
      }
      if !present {
        return;
      }
      containers := RemoveFirst(containers, container);
    }

    /** The per-frame `Update`: when the safe area equals the last one seen it
        does nothing; otherwise it stores it and applies it to every non-null,
        non-destroyed, active and enabled entry, in list order (an entry
        listed twice is applied twice, which ends as one application). */
    method Update(current: Rect, screen: Screen) returns (dispatched: bool)
      requires screen.Valid()
      modifies this`lastSafeArea
      modifies (set c | c in containers && c != null)`lastSafeArea
      modifies (set c | c in containers && c != null)`rect
      modifies (set c | c in containers && c != null)`driven
      ensures dispatched == (old(lastSafeArea) != current)
      ensures containers == old(containers) && lastSafeArea == current
      ensures !dispatched ==> forall c: SafeAreaContainer :: c in containers ==> unchanged(c)
      ensures dispatched ==>
        forall c: SafeAreaContainer :: c in containers ==>
          if Eligible(c) then
            c.lastSafeArea == current && c.driven == DrivenFor(c.edge)
            && c.rect == ApplyRect(old(c.rect), c.edge, c.lockOffset, current, screen)
          else unchanged(c)
    {
      dispatched := lastSafeArea != current;
      if !dispatched {
        return;
      }

      lastSafeArea := current;
      ApplyToEach(lastSafeArea, screen);
    }

    /** The `foreach` loop of `Update`. */
    method ApplyToEach(safeArea: Rect, screen: Screen)
      requires screen.Valid()
      modifies (set c | c in containers && c != null)`lastSafeArea
      modifies (set c | c in containers && c != null)`rect
      modifies (set c | c in containers && c != null)`driven
      ensures forall c: SafeAreaContainer :: c in containers ==>
        if Eligible(c) then
          c.lastSafeArea == safeArea && c.driven == DrivenFor(c.edge)
          && c.rect == ApplyRect(old(c.rect), c.edge, c.lockOffset, safeArea, screen)
        else unchanged(c)
    {
      var cs := containers;
      var i := 0;
      while i < |cs|
        invariant 0 <= i <= |cs|
        invariant forall c: SafeAreaContainer :: c in cs[..i] && Eligible(c) ==>
          c.lastSafeArea == safeArea && c.driven == DrivenFor(c.edge)
          && c.rect == ApplyRect(old(c.rect), c.edge, c.lockOffset, safeArea, screen)
        invariant forall c: SafeAreaContainer :: c in cs && !(c in cs[..i] && Eligible(c)) ==>
          unchanged(c)
      {
        var container := cs[i];
        assert cs[..i + 1] == cs[..i] + [container];
        if container != null && Eligible(container) {
          ApplyRectIdempotent(old(container.rect), container.edge, container.lockOffset, safeArea, screen);
          container.ApplySafeArea(safeArea, screen);
        }
        i := i + 1;
      }
      assert cs[..i] == cs;
    }
  }

  /** Two frames with the same safe area: the second does not dispatch. */
  method ConsecutiveTicks(m: Manager, current: Rect, screen: Screen) returns (first: bool, second: bool)
    requires screen.Valid()
    modifies m`lastSafeArea
    modifies (set c | c in m.containers && c != null)`lastSafeArea
    modifies (set c | c in m.containers && c != null)`rect
    modifies (set c | c in m.containers && c != null)`driven
    ensures first == (old(m.lastSafeArea) != current) && !second
    ensures m.lastSafeArea == current && m.containers == old(m.containers)
  {
    first := m.Update(current, screen);
    second := m.Update(current, screen);
  }

  /** Registering one container twice keeps both entries, because registration
      does not filter duplicates; after a changed safe area is dispatched the
      container is in the state of a single application (how many times it was
      applied is not part of the contract). */
  method RegisterTwiceScenario(initial: RectTransformState, sa: Rect, screen: Screen)
    returns (entries: seq<SafeAreaContainer?>, rect: RectTransformState)
    requires screen.Valid() && sa != RectZero
    ensures |entries| == 2 && entries[0] == entries[1] != null
    ensures rect == ApplyRect(initial, AllEdges, false, sa, screen)
  {
    var m := new Manager(true);
    var c := new SafeAreaContainer(AllEdges, false, initial);
    m.RegisterSafeAreaContainer(c);
    m.RegisterSafeAreaContainer(c);
    entries := m.containers;
    var dispatched := m.Update(sa, screen);
    rect := c.rect;
  }
}
