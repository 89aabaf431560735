/** The terminal shell's list of surfaces: which is active, which was last told to focus, and
    what happens when several close, open and ask for focus at once. */
module Shells {
  import opened Protocol
  import opened Sequences

  /** `focused` is what the surface was last told; a new one has been told nothing. */
  datatype Entry = Entry(id: nat, key: Option<string>, focused: bool)

  datatype Action =
    | Ignored | Consumed | Close | Detach | Open(key: Option<string>) | FocusKey(name: string) | Reconfigure

  datatype Signal = Continue | NoSurfaces | Detached

  /** A surface apart from its focus. */
  datatype Tab = Tab(id: nat, key: Option<string>)

  function Tabs(entries: seq<Entry>): (r: seq<Tab>)
    ensures |r| == |entries| && forall i :: 0 <= i < |r| ==> r[i] == Tab(entries[i].id, entries[i].key)
  {
    seq(|entries|, i requires 0 <= i < |entries| => Tab(entries[i].id, entries[i].key))
  }

  /** The tabs whose surface did not ask to close, in order. */
  function Kept(tabs: seq<Tab>, actions: seq<Action>): (r: seq<Tab>)
    requires |tabs| == |actions|
    ensures |r| <= |tabs|
  {
    if tabs == [] then []
    else (if actions[0].Close? then [] else [tabs[0]]) + Kept(tabs[1..], actions[1..])
  }

  /** The opened surfaces, numbered on from `id`. */
  function Opened(actions: seq<Action>, id: nat): seq<Tab> {
    if actions == [] then []
    else if actions[0].Open? then [Tab(id, actions[0].key)] + Opened(actions[1..], id + 1)
    else Opened(actions[1..], id)
  }

  function Staying(actions: seq<Action>): (n: nat)
    ensures n <= |actions|
  {
    if actions == [] then 0 else (if actions[0].Close? then 0 else 1) + Staying(actions[1..])
  }

  ghost predicate Focused(entries: seq<Entry>, active: Option<nat>) {
    && (entries == [] <==> active.None?)
    && (active.Some? ==> active.value < |entries|)
    && forall i :: 0 <= i < |entries| ==> (entries[i].focused <==> active == Some(i))
  }

  ghost predicate Ordered(entries: seq<Entry>, nextId: nat) {
    && (forall i, j :: 0 <= i < j < |entries| ==> entries[i].id < entries[j].id)
    && (forall i :: 0 <= i < |entries| ==> entries[i].id < nextId)
  }

  function Told(entries: seq<Entry>, i: nat, focus: bool): (r: seq<Entry>)
    requires i < |entries|
    ensures |r| == |entries|
  {
    entries[i := entries[i].(focused := focus)]
  }

  function Dropped(entries: seq<Entry>, i: nat): (r: seq<Entry>)
    requires i < |entries|
    ensures |r| == |entries| - 1
  {
    entries[..i] + entries[i + 1..]
  }

  lemma ToldKeeps(entries: seq<Entry>, i: nat, focus: bool, nextId: nat)
    requires i < |entries|
    ensures Tabs(Told(entries, i, focus)) == Tabs(entries)
    ensures Ordered(entries, nextId) ==> Ordered(Told(entries, i, focus), nextId)
  {
  }

  lemma DroppedKeeps(entries: seq<Entry>, i: nat, nextId: nat)
    requires i < |entries| && Ordered(entries, nextId)
    ensures Ordered(Dropped(entries, i), nextId)
    ensures Tabs(Dropped(entries, i)) == Tabs(entries)[..i] + Tabs(entries)[i + 1..]
  {
  }

  /** What dropping an entry does to the focus of the others. */
  lemma DroppedFocus(entries: seq<Entry>, i: nat, active: nat)
    requires i < |entries| && Focused(entries, Some(active))
    ensures var rest := Dropped(if active == i then Told(entries, i, false) else entries, i);
            && (active == i ==> forall k :: 0 <= k < |rest| ==> !rest[k].focused)
            && (active != i ==> Focused(rest, Some(if i < active then active - 1 else active)))
  {
  }

  lemma FocusFacts(entries: seq<Entry>, active: Option<nat>)
    requires Focused(entries, active)
    ensures (entries == [] <==> active.None?) && (active.Some? ==> active.value < |entries|)
  {
  }

  lemma NothingFocused()
    ensures Focused([], None)
  {
  }

  lemma FocusOne(entries: seq<Entry>, i: nat)
    requires i < |entries| && forall k :: 0 <= k < |entries| ==> !entries[k].focused
    ensures Focused(Told(entries, i, true), Some(i))
  {
  }

  class Shell {
    var entries: seq<Entry>
    var active: Option<nat>
    var nextId: nat
    var dirty: bool
    var backgroundCursor: nat

    /** Empty exactly when nothing is active; exactly the active surface was last told to
        focus; identities grow along the list and stay below the next one. */
    ghost predicate Valid()
      reads this
    {
      Focused(entries, active) && Ordered(entries, nextId)
    }

    constructor ()
      ensures Valid() && entries == [] && nextId == 1
    {
      entries, active, nextId, dirty, backgroundCursor := [], None, 1, true, 0;
    }

    method AddSurface(key: Option<string>) returns (id: nat)
      requires Valid()
      modifies this`entries, this`active, this`nextId, this`dirty
      ensures Valid() && id == old(nextId) && nextId == id + 1
      ensures Tabs(entries) == Tabs(old(entries)) + [Tab(id, key)] && active == Some(|old(entries)|)
    {
      if active.Some? {
        entries := entries[active.value := entries[active.value].(focused := false)];
      }
      id := nextId;
      nextId := nextId + 1;
      entries := entries + [Entry(id, key, false)];
      active := Some(|entries| - 1);
      entries := entries[|entries| - 1 := entries[|entries| - 1].(focused := true)];
      dirty := true;
    }

    method SelectIndex(index: nat)
      requires Valid()
      modifies this`entries, this`active, this`dirty
      ensures Valid() && Tabs(entries) == Tabs(old(entries))
      ensures active == if index < |entries| then Some(index) else old(active)
    {
      if entries == [] || index >= |entries| || active == Some(index) {
        return;
      }
      if active.Some? {
        entries := entries[active.value := entries[active.value].(focused := false)];
      }
      active := Some(index);
      entries := entries[index := entries[index].(focused := true)];
      dirty := true;
    }

    /** Focuses the first surface with this key, if there is one. */
    method SelectKey(name: string) returns (found: bool)
      requires Valid()
      modifies this`entries, this`active, this`dirty
      ensures Valid() && Tabs(entries) == Tabs(old(entries))
      ensures found <==> exists i :: 0 <= i < |entries| && entries[i].key == Some(name)
      ensures if found then active.Some? && entries[active.value].key == Some(name)
                            && forall i :: 0 <= i < active.value ==> entries[i].key != Some(name)
              else active == old(active)
    {
      var i := 0;
      while i < |entries| && entries[i].key != Some(name)
        invariant i <= |entries| && forall k :: 0 <= k < i ==> entries[k].key != Some(name)
      {
        i := i + 1;
      }
      if i == |entries| {
        dirty := true;
        return false;
      }
      assert Tabs(entries)[i].key == Some(name);
      ghost var tabs := Tabs(entries);
      SelectIndex(i);
      assert forall k :: 0 <= k < |entries| ==> entries[k].key == tabs[k].key;
      found := true;
    }

    /** Closes one surface. When it was the active one its right neighbour takes over, or the
        last one left. */
    method RemoveIndex(index: nat) returns (signal: Signal)
      requires Valid()
      modifies this`entries, this`active, this`dirty
      ensures Valid() && signal == if entries == [] then NoSurfaces else Continue
      ensures index >= |old(entries)| ==> entries == old(entries) && active == old(active)
      ensures index < |old(entries)| ==>
                && Tabs(entries) == Tabs(old(entries))[..index] + Tabs(old(entries))[index + 1..]
                && active == (if entries == [] then None
                              else if index < old(active).value then Some(old(active).value - 1)
                              else Some(Min(old(active).value, |entries| - 1)))
    {
      hide Ordered, Focused, Tabs, Told, Dropped;
      FocusFacts(entries, active);
      if index >= |entries| {
        return if entries == [] then NoSurfaces else Continue;
      }
      var previous := active.value;
      DroppedFocus(entries, index, previous);
      if previous == index {
        ToldKeeps(entries, index, false, nextId);
        entries := Told(entries, index, false);
      }
      DroppedKeeps(entries, index, nextId);
      entries := Dropped(entries, index);
      dirty := true;
      if entries == [] {
        active := None;
        NothingFocused();
        return NoSurfaces;
      }
      if previous == index {
        var next := Min(index, |entries| - 1);
        active := Some(next);
        FocusOne(entries, next);
        ToldKeeps(entries, next, true, nextId);
        entries := Told(entries, next, true);
      } else if index < previous {
        active := Some(previous - 1);
      }
      signal := Continue;
    }

    method CloseActive() returns (signal: Signal)
      requires Valid()
      modifies this`entries, this`active, this`dirty
      ensures Valid() && signal == if entries == [] then NoSurfaces else Continue
      ensures old(active).None? ==> entries == [] && active.None?
      ensures old(active).Some? ==>
                var i := old(active).value;
                && i < |old(entries)|
                && Tabs(entries) == Tabs(old(entries))[..i] + Tabs(old(entries))[i + 1..]
                && active == if entries == [] then None else Some(Min(i, |entries| - 1))
    {
      if active.None? {
        return NoSurfaces;
      }
      signal := RemoveIndex(active.value);
    }

    /** What one surface asked for. Opening a key that is already open focuses it instead. */
    method ApplySurfaceAction(index: nat, action: Action) returns (signal: Signal)
      requires Valid()
      modifies this`entries, this`active, this`nextId, this`dirty
      ensures Valid() && (signal == NoSurfaces ==> entries == [])
      ensures index >= |old(entries)| ==> signal == Continue && entries == old(entries) && active == old(active)
      ensures index < |old(entries)| ==>
                match action
                case Close =>
                  && Tabs(entries) == Tabs(old(entries))[..index] + Tabs(old(entries))[index + 1..]
                  && signal == (if entries == [] then NoSurfaces else Continue)
                  && active == (if entries == [] then None
                                else if index < old(active).value then Some(old(active).value - 1)
                                else Some(Min(old(active).value, |entries| - 1)))
                case Detach => signal == Detached && entries == old(entries) && active == old(active)
                case Open(key) =>
                  && signal == Continue
                  && (if key.Some? && exists i :: 0 <= i < |old(entries)| && old(entries)[i].key == key
                      then Tabs(entries) == Tabs(old(entries))
                      else Tabs(entries) == Tabs(old(entries)) + [Tab(old(nextId), key)])
                  && active.Some? && entries[active.value].key == key
                case FocusKey(name) =>
                  && signal == Continue && Tabs(entries) == Tabs(old(entries))
                  && if exists i :: 0 <= i < |entries| && entries[i].key == Some(name)
                     then active.Some? && entries[active.value].key == Some(name)
                          && forall i :: 0 <= i < active.value ==> entries[i].key != Some(name)
                     else active == old(active)
                case _ => signal == Continue && entries == old(entries) && active == old(active)
    {
      if index >= |entries| {
        return Continue;
      }
      signal := Continue;
      match action
      case Ignored =>
      case Consumed => dirty := true;
      case Close => signal := RemoveIndex(index);
      case Detach => signal := Detached;
      case Open(key) =>
        ghost var before := Tabs(entries);
        if key.Some? {
          var found := SelectKey(key.value);
          if found {
            return;
          }
          assert forall i :: 0 <= i < |entries| ==> entries[i].key == before[i].key;
        }
        var id := AddSurface(key);
        assert Tabs(entries)[|entries| - 1] == Tab(id, key);
      case FocusKey(name) => var _ := SelectKey(name);
      case Reconfigure => dirty := true;
    }

    /** Closes every surface that asked to, from the end so that the indices stay right. */
    method CloseAll(actions: seq<Action>)
      requires Valid() && |actions| == |entries|
      modifies this`entries, this`active, this`dirty
      ensures Valid() && Tabs(entries) == Kept(Tabs(old(entries)), actions)
      ensures active == if entries == [] then None
                        else Some(Min(Staying(actions[..old(active).value]), |entries| - 1))
    {
      hide Ordered, Focused, Tabs, Kept, Staying, Placed;
      FocusFacts(entries, active);
      ghost var tabs := Tabs(entries);
      ghost var chosen := if active.Some? then active.value else 0;
      var i: nat := |entries|;
      Remains(tabs, actions, |tabs|, chosen);
      while i > 0
        invariant i <= |tabs| && Valid()
        invariant Tabs(entries) == tabs[..i] + Kept(tabs[i..], actions[i..])
        invariant entries != [] ==> active == Some(Placed(actions, chosen, i, |entries|))
      {
        i := i - 1;
        ghost var held := Tabs(entries);
        FocusFacts(entries, active);
        KeptStep(tabs, actions, i);
        assert held == tabs[..i] + [tabs[i]] + Kept(tabs[i + 1..], actions[i + 1..]);
        PlacedStep(actions, chosen, i, |entries|);
        if actions[i].Close? {
          var _ := RemoveIndex(i);
          assert held[..i] == tabs[..i] && held[i + 1..] == Kept(tabs[i + 1..], actions[i + 1..]);
        } else {
          assert tabs[..i] + [tabs[i]] + Kept(tabs[i + 1..], actions[i + 1..])
                 == tabs[..i] + ([tabs[i]] + Kept(tabs[i + 1..], actions[i + 1..]));
        }
      }
      FocusFacts(entries, active);
      AllPlaced(tabs, actions, chosen, |entries|);
    }

    /** One event for every surface: closes, then opens, then focus requests. */
    method DispatchToAll(actions: seq<Action>, animated: bool) returns (signal: Signal)
      requires Valid() && |actions| == |entries|
      modifies this`entries, this`active, this`nextId, this`dirty
      ensures Valid()
      ensures Tabs(entries) == Kept(Tabs(old(entries)), actions) + Opened(actions, old(nextId))
      ensures signal == if exists i :: 0 <= i < |actions| && actions[i].Detach? then Detached
                        else if entries == [] then NoSurfaces else Continue
      ensures entries != [] ==>
                LastFocus(Tabs(entries), actions,
                          if exists i :: 0 <= i < |actions| && actions[i].Open? then Some(|entries| - 1)
                          else Some(Min(Staying(actions[..old(active).value]), |entries| - 1)), active)
    {
      hide Ordered, Focused, Tabs, Kept, Staying, Opened, LastFocus;
      FocusFacts(entries, active);
      CloseAll(actions);
      FocusFacts(entries, active);
      if forall i :: 0 <= i < |actions| ==> !actions[i].Open? {
        NoneOpened(actions, nextId);
      }
      var detach, redraw := OpenAll(actions);
      FocusAll(actions);
      dirty := dirty || redraw || animated;
      signal := if detach then Detached else if entries == [] then NoSurfaces else Continue;
    }

    /** Adds every surface that was asked for; the last one is active. */
    method OpenAll(actions: seq<Action>) returns (detach: bool, redraw: bool)
      requires Valid()
      modifies this`entries, this`active, this`nextId, this`dirty
      ensures Valid() && Tabs(entries) == Tabs(old(entries)) + Opened(actions, old(nextId))
      ensures detach <==> exists k :: 0 <= k < |actions| && actions[k].Detach?
      ensures active == if exists k :: 0 <= k < |actions| && actions[k].Open? then Some(|entries| - 1) else old(active)
    {
      hide Ordered, Focused, Tabs, Opened;
      NoneOpened([], nextId);
      detach, redraw := false, false;
      ghost var base := Tabs(entries);
      assert actions[..0] == [] && base + [] == base;
      for i := 0 to |actions|
        invariant Valid() && Tabs(entries) == base + Opened(actions[..i], old(nextId))
        invariant nextId == old(nextId) + |Opened(actions[..i], old(nextId))|
        invariant detach <==> exists k :: 0 <= k < i && actions[k].Detach?
        invariant active == if exists k :: 0 <= k < i && actions[k].Open? then Some(|entries| - 1) else old(active)
      {
        OpenedSnoc(actions[..i], actions[i], old(nextId));
        assert actions[..i + 1] == actions[..i] + [actions[i]];
        match actions[i]
        case Open(key) =>
          var _ := AddSurface(key);
        case Detach => detach := true;
        case Consumed => redraw := true;
        case Reconfigure => redraw := true;
        case _ =>
      }
      assert actions[..|actions|] == actions;
    }

    /** Serves the focus requests in order. */
    method FocusAll(actions: seq<Action>)
      requires Valid()
      modifies this`entries, this`active, this`dirty
      ensures Valid() && Tabs(entries) == Tabs(old(entries))
      ensures LastFocus(Tabs(entries), actions, old(active), active)
    {
      hide Ordered, Focused, LastFocus, Finds, Leads;
      ghost var tabs := Tabs(entries);
      NoFocus(tabs, active);
      assert actions[..0] == [];
      for i := 0 to |actions|
        invariant Valid() && Tabs(entries) == tabs
        invariant LastFocus(tabs, actions[..i], old(active), active)
      {
        assert actions[..i + 1] == actions[..i] + [actions[i]];
        ghost var before := active;
        FocusOn(actions[i]);
        FocusSnoc(tabs, actions[..i], actions[i], old(active), before, active);
      }
      assert actions[..|actions|] == actions;
    }

    /** One surface's focus request, if it made one. */
    method FocusOn(action: Action)
      requires Valid()
      modifies this`entries, this`active, this`dirty
      ensures Valid() && Tabs(entries) == Tabs(old(entries))
      ensures if Finds(Tabs(entries), action) then Leads(Tabs(entries), action, active) else active == old(active)
    {
      if action.FocusKey? {
        var _ := SelectKey(action.name);
      }
    }

    /** Serves the first surface that is ready, starting where the last poll left off. */
    method PollBackground(ready: seq<bool>) returns (served: Option<nat>)
      requires Valid() && |ready| == |entries|
      modifies this`backgroundCursor
      ensures served.None? <==> forall i :: 0 <= i < |ready| ==> !ready[i]
      ensures served.None? ==> backgroundCursor == old(backgroundCursor)
      ensures served.Some? ==>
                && served.value < |ready| && ready[served.value]
                && backgroundCursor == Wrap(served.value + 1, |ready|)
                && forall i :: 0 <= i < |ready| && ready[i] ==>
                     Ahead(old(backgroundCursor), served.value, |ready|) <= Ahead(old(backgroundCursor), i, |ready|)
    {
      var len := |entries|;
      if len == 0 {
        return None;
      }
      var start := Wrap(backgroundCursor, len);
      for offset := 0 to len
        invariant forall i :: 0 <= i < len && Ahead(backgroundCursor, i, len) < offset ==> !ready[i]
        invariant backgroundCursor == old(backgroundCursor)
      {
        var index := Wrap(start + offset, len);
        AheadOf(backgroundCursor, offset, len);
        if ready[index] {
          backgroundCursor := Wrap(index + 1, len);
          return Some(index);
        }
        assert forall i :: 0 <= i < len && Ahead(backgroundCursor, i, len) == offset ==> i == index;
      }
      assert forall i :: 0 <= i < len ==> Ahead(backgroundCursor, i, len) < len;
      served := None;
    }
  }

  // ----- focus -----

  /** A focus request that names an open surface. */
  ghost predicate Finds(tabs: seq<Tab>, a: Action) {
    a.FocusKey? && exists i :: 0 <= i < |tabs| && tabs[i].key == Some(a.name)
  }

  /** The surface at `i` is the first with the key a focus request names. */
  ghost predicate Leads(tabs: seq<Tab>, a: Action, i: Option<nat>) {
    && a.FocusKey? && i.Some? && i.value < |tabs| && tabs[i.value].key == Some(a.name)
    && forall k :: 0 <= k < i.value ==> tabs[k].key != Some(a.name)
  }

  ghost predicate NoneFinds(tabs: seq<Tab>, actions: seq<Action>, from: nat) {
    forall k :: from <= k < |actions| ==> !Finds(tabs, actions[k])
  }

  /** The last focus request that names an open surface decides; without one nothing moves. */
  ghost predicate LastFocus(tabs: seq<Tab>, actions: seq<Action>, before: Option<nat>, after: Option<nat>) {
    || (after == before && NoneFinds(tabs, actions, 0))
    || exists k :: 0 <= k < |actions| && Leads(tabs, actions[k], after) && NoneFinds(tabs, actions, k + 1)
  }

  lemma NoFocus(tabs: seq<Tab>, active: Option<nat>)
    ensures LastFocus(tabs, [], active, active)
  {
  }

  lemma FocusSnoc(
    tabs: seq<Tab>, actions: seq<Action>, a: Action, first: Option<nat>, mid: Option<nat>, last: Option<nat>)
    requires LastFocus(tabs, actions, first, mid)
    requires if Finds(tabs, a) then Leads(tabs, a, last) else last == mid
    ensures LastFocus(tabs, actions + [a], first, last)
  {
    hide Finds, Leads;
    var all := actions + [a];
    assert all[|actions|] == a;
    if Finds(tabs, a) {
      assert NoneFinds(tabs, all, |actions| + 1);
    } else if last == first && NoneFinds(tabs, actions, 0) {
      assert NoneFinds(tabs, all, 0);
    } else {
      var k :| 0 <= k < |actions| && Leads(tabs, actions[k], mid) && NoneFinds(tabs, actions, k + 1);
      assert Leads(tabs, all[k], last) && NoneFinds(tabs, all, k + 1);
    }
  }

  // ----- closing many at once -----

  /** Where the active surface is once the closing surfaces from `i` on are gone: as many
      places after `i` as stay between `i` and it, or at the end. */
  function Placed(actions: seq<Action>, chosen: nat, i: nat, len: nat): nat
    requires chosen < |actions| && i <= |actions| && len > 0
  {
    if chosen < i then chosen else Min(i + Staying(actions[i..chosen]), len - 1)
  }

  /** One more surface considered: closing it moves the active one as `RemoveIndex` does. */
  lemma PlacedStep(actions: seq<Action>, chosen: nat, i: nat, len: nat)
    requires chosen < |actions| && i < |actions| && i < len
    ensures var now := Placed(actions, chosen, i + 1, len);
            && (!actions[i].Close? ==> Placed(actions, chosen, i, len) == now)
            && (actions[i].Close? && len > 1 ==>
                  Placed(actions, chosen, i, len - 1) == if i < now then now - 1 else Min(now, len - 2))
  {
    if i < chosen {
      assert actions[i..chosen][1..] == actions[i + 1..chosen] && actions[i..chosen][0] == actions[i];
    } else if i == chosen {
      assert actions[i..chosen] == [];
    }
  }

  lemma AllPlaced(tabs: seq<Tab>, actions: seq<Action>, chosen: nat, len: nat)
    requires |tabs| == |actions| && (actions == [] || chosen < |actions|)
    ensures tabs[..0] + Kept(tabs[0..], actions[0..]) == Kept(tabs, actions)
    ensures len > 0 && actions != [] ==> Placed(actions, chosen, 0, len) == Min(Staying(actions[..chosen]), len - 1)
  {
    assert tabs[0..] == tabs && actions[0..] == actions;
    if actions != [] {
      assert actions[0..chosen] == actions[..chosen];
    }
  }

  lemma KeptStep(tabs: seq<Tab>, actions: seq<Action>, i: nat)
    requires |tabs| == |actions| && i < |tabs|
    ensures Kept(tabs[i..], actions[i..])
            == (if actions[i].Close? then [] else [tabs[i]]) + Kept(tabs[i + 1..], actions[i + 1..])
    ensures tabs[..i + 1] == tabs[..i] + [tabs[i]]
  {
    assert tabs[i..][1..] == tabs[i + 1..] && actions[i..][1..] == actions[i + 1..];
  }

  lemma Remains(tabs: seq<Tab>, actions: seq<Action>, n: nat, chosen: nat)
    requires |tabs| == |actions| == n && (actions == [] || chosen < n)
    ensures tabs[..n] + Kept(tabs[n..], actions[n..]) == tabs
    ensures actions != [] ==> Placed(actions, chosen, n, n) == chosen
  {
  }

  lemma {:induction false} NoneOpened(actions: seq<Action>, id: nat)
    requires forall i :: 0 <= i < |actions| ==> !actions[i].Open?
    ensures Opened(actions, id) == []
  {
    if actions != [] {
      NoneOpened(actions[1..], id);
    }
  }

  lemma {:induction false} OpenedSnoc(actions: seq<Action>, a: Action, id: nat)
    ensures Opened(actions + [a], id)
            == Opened(actions, id) + if a.Open? then [Tab(id + |Opened(actions, id)|, a.key)] else []
  {
    if actions == [] {
      assert [a][1..] == [] && actions + [a] == [a];
    } else {
      assert (actions + [a])[1..] == actions[1..] + [a];
      OpenedSnoc(actions[1..], a, if actions[0].Open? then id + 1 else id);
    }
  }

  // ----- taking turns -----

  function Wrap(n: nat, len: nat): (r: nat)
    requires len > 0
    ensures r < len
  {
    n % len
  }

  /** How many turns surface `i` waits when polling starts at `cursor`. */
  function Ahead(cursor: nat, i: nat, len: nat): (r: nat)
    requires i < len
    ensures r < len
  {
    var start := Wrap(cursor, len);
    if i >= start then i - start else i + len - start
  }

  lemma AheadOf(cursor: nat, offset: nat, len: nat)
    requires len > 0 && offset < len
    ensures Ahead(cursor, Wrap(Wrap(cursor, len) + offset, len), len) == offset
    ensures forall i :: 0 <= i < len && Ahead(cursor, i, len) == offset ==> i == Wrap(Wrap(cursor, len) + offset, len)
  {
    hide Wrap;
    WrapOnce(Wrap(cursor, len) + offset, len);
  }

  lemma WrapOnce(n: nat, len: nat)
    requires len > 0 && n < len + len
    ensures Wrap(n, len) == if n < len then n else n - len
  {
    if n >= len {
      SmallMod(n - len, len);
    } else {
      WrapSmall(n, len);
    }
  }

  lemma SmallMod(n: nat, len: nat)
    requires n < len
    ensures (n + len) % len == n
  {
    assert (n + len) / len == 1;
  }

  /** One poll of `len` surfaces, as `PollBackground` serves them: nobody who is ready is nearer
      than the one served. `waiting` is ready. */
  ghost predicate Turn(cursor: nat, served: nat, next: nat, waiting: nat, len: nat) {
    && served < len && waiting < len
    && Ahead(cursor, served, len) <= Ahead(cursor, waiting, len)
    && next == Wrap(served + 1, len)
  }

  /** Nobody starves: a surface that stays ready is served within as many polls as it has
      surfaces ahead of it, plus one; that is at most the number of surfaces. */
  lemma {:induction false} NobodyStarves(cursors: seq<nat>, served: seq<nat>, waiting: nat, len: nat)
    requires |cursors| == |served| + 1 && waiting < len
    requires forall k :: 0 <= k < |served| ==> Turn(cursors[k], served[k], cursors[k + 1], waiting, len)
    requires |served| > Ahead(cursors[0], waiting, len)
    ensures waiting in served[..Ahead(cursors[0], waiting, len) + 1]
    ensures Ahead(cursors[0], waiting, len) + 1 <= len
  {
    hide Wrap, Ahead;
    assert Turn(cursors[0], served[0], cursors[1], waiting, len);
    var n := Ahead(cursors[0], waiting, len);
    if served[0] == waiting {
      assert served[..n + 1][0] == waiting;
    } else {
      PassedOverMovesUp(cursors[0], served[0], waiting, len);
      forall k | 0 <= k < |served[1..]|
        ensures Turn(cursors[1..][k], served[1..][k], cursors[1..][k + 1], waiting, len)
      {
        assert Turn(cursors[k + 1], served[k + 1], cursors[k + 2], waiting, len);
      }
      NobodyStarves(cursors[1..], served[1..], waiting, len);
      var m := Ahead(cursors[1], waiting, len);
      var i :| 0 <= i < m + 1 && served[1..][..m + 1][i] == waiting;
      assert served[..n + 1][i + 1] == waiting;
    }
  }

  /** A ready surface that is passed over comes strictly nearer to its turn. */
  lemma PassedOverMovesUp(cursor: nat, served: nat, waiting: nat, len: nat)
    requires served < len && waiting < len && served != waiting
    requires Ahead(cursor, served, len) <= Ahead(cursor, waiting, len)
    ensures Ahead(Wrap(served + 1, len), waiting, len) < Ahead(cursor, waiting, len)
  {
    hide Wrap;
    WrapNext(served, len);
    WrapSmall(Wrap(served + 1, len), len);
  }

  lemma WrapSmall(n: nat, len: nat)
    requires n < len
    ensures Wrap(n, len) == n
  {
  }

  lemma WrapNext(n: nat, len: nat)
    requires n < len
    ensures Wrap(n + 1, len) == if n + 1 == len then 0 else n + 1
  {
    if n + 1 == len {
      SmallMod(0, len);
    } else {
      WrapSmall(n + 1, len);
    }
  }
}
