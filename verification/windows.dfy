/**
 * The window registry adapter. The host's windows are a sequence of records
 * in the host's enumeration order, with distinct ids and at most one of them
 * focused. The adapter remembers which ids it created itself ("tracked");
 * only those may be updated or removed through it, while the queries look at
 * every host window.
 */
module WindowsHandler {
  import opened Wrappers

  datatype Size = Size(width: int, height: int)
  datatype Position = Position(left: int, top: int)

  /** A host window: the id of its web contents, its focus, size and position. */
  datatype HostWindow = HostWindow(id: int, focused: bool, size: Size, position: Position)

  /** The extension platform's window snapshot. */
  datatype Window = Window(id: int, focused: bool, incognito: bool, alwaysOnTop: bool)

  /** A window snapshot, or the empty object `{}`. */
  datatype Reply = Empty | Found(window: Window)

  datatype CreateData = CreateData(
    width: Option<int>, height: Option<int>, left: Option<int>, top: Option<int>, url: Option<string>)

  datatype UpdateInfo = UpdateInfo(
    width: Option<int>, height: Option<int>, left: Option<int>, top: Option<int>)

  datatype Event = OnCreated(window: Window) | OnRemoved(windowId: int)

  const DefaultWidth: int := 800
  const DefaultHeight: int := 600

  /** JavaScript truthiness of an optional number: present and not zero. */
  predicate Truthy(n: Option<int>) {
    n.Some? && n.value != 0
  }

  /** JavaScript `n || fallback` on an optional number. */
  function Or(n: Option<int>, fallback: int): int {
    if Truthy(n) then n.value else fallback
  }

  function SnapshotOf(w: HostWindow): Window {
    Window(w.id, w.focused, false, false)
  }

  /** What the host guarantees of its window list. */
  ghost predicate HostInvariant(ws: seq<HostWindow>) {
    (forall i, j :: 0 <= i < |ws| && 0 <= j < |ws| && ws[i].id == ws[j].id ==> i == j) &&
    (forall i, j :: 0 <= i < |ws| && 0 <= j < |ws| && ws[i].focused && ws[j].focused ==> i == j)
  }

  predicate HasWindow(ws: seq<HostWindow>, id: int) {
    exists w :: w in ws && w.id == id
  }

  /** Position of the first host window with this id, as `find` searches. */
  function FindWindow(ws: seq<HostWindow>, id: int): (r: Option<nat>)
    ensures r.None? <==> !HasWindow(ws, id)
    ensures r.Some? ==> r.value < |ws| && ws[r.value].id == id
    ensures r.Some? ==> forall k :: 0 <= k < r.value ==> ws[k].id != id
  {
    if ws == [] then None
    else if ws[0].id == id then Some(0)
    else match FindWindow(ws[1..], id)
      case None => None
      case Some(k) => Some(k + 1)
  }

  /** Position of the host's focused window, if any. */
  function FindFocused(ws: seq<HostWindow>): (r: Option<nat>)
    ensures r.None? <==> forall w :: w in ws ==> !w.focused
    ensures r.Some? ==> r.value < |ws| && ws[r.value].focused
  {
    if ws == [] then None
    else if ws[0].focused then Some(0)
    else match FindFocused(ws[1..])
      case None => None
      case Some(k) => Some(k + 1)
  }

  /** Snapshots of the host windows whose id is in `ids`, in host order. */
  function Visible(ws: seq<HostWindow>, ids: set<int>): (r: seq<Window>)
    ensures |r| <= |ws|
  {
    if ws == [] then []
    else (if ws[0].id in ids then [SnapshotOf(ws[0])] else []) + Visible(ws[1..], ids)
  }

  /** `Visible` lists a snapshot exactly when some host window with an id in `ids` has it. */
  lemma {:induction false} VisibleMembers(ws: seq<HostWindow>, ids: set<int>)
    ensures forall v :: v in Visible(ws, ids) <==> exists w :: w in ws && w.id in ids && v == SnapshotOf(w)
  {
    if ws != [] {
      VisibleMembers(ws[1..], ids);
      assert forall w :: w in ws <==> w == ws[0] || w in ws[1..];
    }
  }

  function Shift(ps: seq<nat>): (r: seq<nat>)
    ensures |r| == |ps| && forall k :: 0 <= k < |ps| ==> r[k] == ps[k] + 1
  {
    seq(|ps|, k requires 0 <= k < |ps| => ps[k] + 1)
  }

  /** The host positions of the windows whose id is in `ids`. */
  ghost function KeptPositions(ws: seq<HostWindow>, ids: set<int>): seq<nat> {
    if ws == [] then []
    else (if ws[0].id in ids then [0] else []) + Shift(KeptPositions(ws[1..], ids))
  }

  /** The k-th snapshot `Visible` lists is that of the window at the k-th kept position. */
  lemma {:induction false} KeptPositionsAlign(ws: seq<HostWindow>, ids: set<int>)
    ensures |KeptPositions(ws, ids)| == |Visible(ws, ids)|
    ensures forall k :: 0 <= k < |KeptPositions(ws, ids)| ==>
      KeptPositions(ws, ids)[k] < |ws| && Visible(ws, ids)[k] == SnapshotOf(ws[KeptPositions(ws, ids)[k]])
  {
    if ws != [] {
      var tail := ws[1..];
      KeptPositionsAlign(tail, ids);
      var rt, pt := Visible(tail, ids), KeptPositions(tail, ids);
      var hr: seq<Window> := if ws[0].id in ids then [SnapshotOf(ws[0])] else [];
      var hp: seq<nat> := if ws[0].id in ids then [0] else [];
      var r, ps := hr + rt, hp + Shift(pt);
      assert Visible(ws, ids) == r;
      assert KeptPositions(ws, ids) == ps;
      forall k | 0 <= k < |ps|
        ensures ps[k] < |ws| && r[k] == SnapshotOf(ws[ps[k]])
      {
        if k < |hp| {
          assert ps[k] == 0 && r[k] == SnapshotOf(ws[0]);
        } else {
          var m := k - |hp|;
          assert ps[k] == pt[m] + 1 && r[k] == rt[m];
          assert tail[pt[m]] == ws[pt[m] + 1];
        }
      }
    }
  }

  /** Every kept position holds a host window whose id is in `ids`. */
  lemma {:induction false} KeptPositionsMatch(ws: seq<HostWindow>, ids: set<int>)
    ensures forall k :: 0 <= k < |KeptPositions(ws, ids)| ==>
      KeptPositions(ws, ids)[k] < |ws| && ws[KeptPositions(ws, ids)[k]].id in ids
  {
    if ws != [] {
      var tail := ws[1..];
      var pt := KeptPositions(tail, ids);
      KeptPositionsMatch(tail, ids);
      var hp: seq<nat> := if ws[0].id in ids then [0] else [];
      var ps := hp + Shift(pt);
      assert KeptPositions(ws, ids) == ps;
      forall k | 0 <= k < |ps|
        ensures ps[k] < |ws| && ws[ps[k]].id in ids
      {
        if k >= |hp| {
          var m := k - |hp|;
          assert ps[k] == pt[m] + 1;
          assert tail[pt[m]] == ws[pt[m] + 1];
        }
      }
    }
  }

  /** Kept positions strictly increase: the host's order is kept. */
  lemma {:induction false} KeptPositionsIncrease(ws: seq<HostWindow>, ids: set<int>)
    ensures forall k, l :: 0 <= k < l < |KeptPositions(ws, ids)| ==>
      KeptPositions(ws, ids)[k] < KeptPositions(ws, ids)[l]
  {
    if ws != [] {
      var pt := KeptPositions(ws[1..], ids);
      KeptPositionsIncrease(ws[1..], ids);
      var hp: seq<nat> := if ws[0].id in ids then [0] else [];
      var ps := hp + Shift(pt);
      assert KeptPositions(ws, ids) == ps;
      forall k, l | 0 <= k < l < |ps|
        ensures ps[k] < ps[l]
      {
        assert ps[l] == pt[l - |hp|] + 1;
        if k >= |hp| {
          assert ps[k] == pt[k - |hp|] + 1;
        }
      }
    }
  }

  /** Every host window whose id is in `ids` is at a kept position: none is dropped. */
  lemma {:induction false} KeptPositionsCover(ws: seq<HostWindow>, ids: set<int>)
    ensures forall p :: 0 <= p < |ws| && ws[p].id in ids ==> p in KeptPositions(ws, ids)
  {
    if ws != [] {
      var tail := ws[1..];
      var pt := KeptPositions(tail, ids);
      KeptPositionsCover(tail, ids);
      var hp: seq<nat> := if ws[0].id in ids then [0] else [];
      var ps := hp + Shift(pt);
      assert KeptPositions(ws, ids) == ps;
      forall p | 0 <= p < |ws| && ws[p].id in ids
        ensures p in ps
      {
        if p == 0 {
          assert ps[0] == 0;
        } else {
          assert tail[p - 1] == ws[p];
          var k :| 0 <= k < |pt| && pt[k] == p - 1;
          assert ps[|hp| + k] == p;
        }
      }
    }
  }

  /**
   * `Visible` is the snapshot of each window whose id is in `ids`, taken at
   * strictly increasing host positions that cover every such window: a
   * filter that keeps the host's order and invents nothing.
   */
  lemma VisibleIsOrderedSelection(ws: seq<HostWindow>, ids: set<int>)
    ensures var r, ps := Visible(ws, ids), KeptPositions(ws, ids);
      |ps| == |r| &&
      (forall k :: 0 <= k < |ps| ==> ps[k] < |ws| && ws[ps[k]].id in ids && r[k] == SnapshotOf(ws[ps[k]])) &&
      (forall k, l :: 0 <= k < l < |ps| ==> ps[k] < ps[l]) &&
      (forall p :: 0 <= p < |ws| && ws[p].id in ids ==> p in ps)
  {
    KeptPositionsAlign(ws, ids);
    KeptPositionsMatch(ws, ids);
    KeptPositionsIncrease(ws, ids);
    KeptPositionsCover(ws, ids);
  }

  /** Every host window with its focus cleared. */
  function Unfocused(ws: seq<HostWindow>): (r: seq<HostWindow>)
    ensures |r| == |ws|
    ensures forall k :: 0 <= k < |ws| ==> r[k] == ws[k].(focused := false)
  {
    seq(|ws|, k requires 0 <= k < |ws| => ws[k].(focused := false))
  }

  /** The size `create` asks for: 800 by 600 unless a truthy width or height is given. */
  function CreateSize(data: CreateData): (s: Size)
    ensures Truthy(data.width) ==> s.width == data.width.value
    ensures data.width.None? || data.width == Some(0) ==> s.width == DefaultWidth
    ensures Truthy(data.height) ==> s.height == data.height.value
    ensures data.height.None? || data.height == Some(0) ==> s.height == DefaultHeight
  {
    Size(Or(data.width, DefaultWidth), Or(data.height, DefaultHeight))
  }

  /**
   * Where a new window is placed: `left` and `top` are passed to the host
   * as given (zero included); without both the host chooses, here `centre`.
   */
  function CreatePosition(data: CreateData, centre: Position): (p: Position)
    ensures data.left.Some? && data.top.Some? ==> p == Position(data.left.value, data.top.value)
    ensures data.left.None? || data.top.None? ==> p == centre
  {
    match (data.left, data.top)
    case (Some(x), Some(y)) => Position(x, y)
    case _ => centre
  }

  /**
   * A window after `update`: each truthy dimension is applied, every other
   * one falls back to the window's current value; nothing else changes.
   */
  function Updated(w: HostWindow, info: Option<UpdateInfo>): (r: HostWindow)
    ensures r.id == w.id && r.focused == w.focused
    ensures info.None? ==> r == w
    ensures info.Some? ==> var u := info.value;
      (Truthy(u.width) ==> r.size.width == u.width.value) &&
      (!Truthy(u.width) ==> r.size.width == w.size.width) &&
      (Truthy(u.height) ==> r.size.height == u.height.value) &&
      (!Truthy(u.height) ==> r.size.height == w.size.height) &&
      (Truthy(u.left) ==> r.position.left == u.left.value) &&
      (!Truthy(u.left) ==> r.position.left == w.position.left) &&
      (Truthy(u.top) ==> r.position.top == u.top.value) &&
      (!Truthy(u.top) ==> r.position.top == w.position.top)
  {
    match info
    case None => w
    case Some(u) =>
      var size :=
        if Truthy(u.width) || Truthy(u.height) then Size(Or(u.width, w.size.width), Or(u.height, w.size.height))
        else w.size;
      var position :=
        if Truthy(u.left) || Truthy(u.top) then Position(Or(u.left, w.position.left), Or(u.top, w.position.top))
        else w.position;
      w.(size := size, position := position)
  }

  lemma HostInvariantWithout(ws: seq<HostWindow>, i: nat)
    requires HostInvariant(ws) && i < |ws|
    ensures HostInvariant(ws[..i] + ws[i + 1..])
    ensures !HasWindow(ws[..i] + ws[i + 1..], ws[i].id)
  {
    var rest := ws[..i] + ws[i + 1..];
    assert forall k :: 0 <= k < |rest| ==> rest[k] == ws[if k < i then k else k + 1];
  }

  /** The adapter for one extension: its tracked ids, the host's windows and the events it emitted. */
  class Windows {
    var tracked: set<int>
    var host: seq<HostWindow>
    var events: seq<Event>

    ghost predicate Valid()
      reads this
    {
      HostInvariant(host)
    }

    constructor (windows: seq<HostWindow>)
      requires HostInvariant(windows)
      ensures Valid() && host == windows && tracked == {} && events == []
    {
      tracked := {};
      host := windows;
      events := [];
    }

    /** `get`: a snapshot of any host window with this id, tracked or not, else `{}`. */
    function HandleGet(windowId: int): (r: Reply)
      reads this
      ensures r.Found? <==> HasWindow(host, windowId)
      ensures r.Found? ==>
        exists w :: w in host && w.id == windowId && r.window == Window(windowId, w.focused, false, false)
    {
      match FindWindow(host, windowId)
      case None => Empty
      case Some(i) => Found(SnapshotOf(host[i]))
    }

    /** `getCurrent`: the focused host window's snapshot, else `{}`. */
    function HandleGetCurrent(): (r: Reply)
      reads this
      ensures r.Found? <==> exists w :: w in host && w.focused
      ensures r.Found? ==> exists w :: w in host && w.focused && r.window == Window(w.id, true, false, false)
    {
      match FindFocused(host)
      case None => Empty
      case Some(i) => Found(SnapshotOf(host[i]))
    }

    /** `getLastFocused`: approximated by the currently focused window. */
    function HandleGetLastFocused(): (r: Reply)
      reads this
      ensures r == HandleGetCurrent()
    {
      HandleGetCurrent()
    }

    /** The ids `getAll` lists: the tracked ones and the focused window's. */
    function Candidates(): (ids: set<int>)
      reads this
      requires Valid()
      ensures forall w :: w in host ==> (w.id in ids <==> w.id in tracked || w.focused)
    {
      var ids := match FindFocused(host)
        case None => tracked
        case Some(i) => tracked + {host[i].id};
      assert forall w :: w in host ==> (w.id in ids <==> w.id in tracked || w.focused) by {
        forall w | w in host
          ensures w.id in ids <==> w.id in tracked || w.focused
        {
          var j :| 0 <= j < |host| && host[j] == w;
        }
      }
      ids
    }

    /** `getAll`: the host windows that are tracked or focused, in host order. */
    function HandleGetAll(): (r: seq<Window>)
      reads this
      requires Valid()
      ensures forall v :: v in r <==> exists w :: w in host && (w.id in tracked || w.focused) && v == SnapshotOf(w)
    {
      VisibleMembers(host, Candidates());
      Visible(host, Candidates())
    }

    /**
     * `getAll` is the snapshot of each tracked or focused host window, taken
     * at strictly increasing host positions that cover every such window.
     */
    lemma GetAllIsOrderedSelection()
      requires Valid()
      ensures var r, ps := HandleGetAll(), KeptPositions(host, Candidates());
        |ps| == |r| &&
        (forall k :: 0 <= k < |ps| ==>
          ps[k] < |host| && (host[ps[k]].id in tracked || host[ps[k]].focused) && r[k] == SnapshotOf(host[ps[k]])) &&
        (forall k, l :: 0 <= k < l < |ps| ==> ps[k] < ps[l]) &&
        (forall p :: 0 <= p < |host| && (host[p].id in tracked || host[p].focused) ==> p in ps)
    {
      VisibleIsOrderedSelection(host, Candidates());
    }

    /**
     * `create`: the host opens a window with the id `newId`, focused or not
     * as the host decides; the adapter tracks it and emits `OnCreated`.
     * Without create data the call throws (`None`) before anything happens.
     */
    method HandleCreate(createData: Option<CreateData>, newId: int, focusedNow: bool, centre: Position)
      returns (r: Option<Window>)
      requires Valid() && !HasWindow(host, newId)
      modifies this
      ensures Valid()
      ensures createData.None? ==>
        r.None? && host == old(host) && tracked == old(tracked) && events == old(events)
      ensures createData.Some? ==> var data := createData.value;
        r == Some(Window(newId, focusedNow, false, false)) &&
        host == (if focusedNow then Unfocused(old(host)) else old(host))
                + [HostWindow(newId, focusedNow, CreateSize(data), CreatePosition(data, centre))] &&
        tracked == old(tracked) + {newId} &&
        events == old(events) + [OnCreated(r.value)]
    {
      if createData.None? {
        return None;
      }
      var data := createData.value;
      var w := HostWindow(newId, focusedNow, CreateSize(data), CreatePosition(data, centre));
      var before := if focusedNow then Unfocused(host) else host;
      assert forall k :: 0 <= k < |host| ==> before[k].id == host[k].id;
      host := before + [w];
      tracked := tracked + {newId};
      var window := SnapshotOf(w);
      events := events + [OnCreated(window)];
      r := Some(window);
    }

    /**
     * `update`: on a tracked window that the host still has, applies the
     * truthy dimensions and returns its snapshot; otherwise changes nothing
     * and returns `{}`.
     */
    method HandleUpdate(windowId: int, info: Option<UpdateInfo>) returns (r: Reply)
      requires Valid()
      modifies this
      ensures Valid() && tracked == old(tracked) && events == old(events)
      ensures !(HasWindow(old(host), windowId) && windowId in tracked) ==> r == Empty && host == old(host)
      ensures HasWindow(old(host), windowId) && windowId in tracked ==>
        var i := FindWindow(old(host), windowId).value;
        host == old(host)[i := Updated(old(host)[i], info)] &&
        r == Found(Window(windowId, old(host)[i].focused, false, false))
    {
      match FindWindow(host, windowId) {
        case None =>
          r := Empty;
        case Some(i) =>
          if host[i].id !in tracked {
            r := Empty;
          } else {
            host := host[i := Updated(host[i], info)];
            r := Found(SnapshotOf(host[i]));
          }
      }
    }

    /**
     * `remove`: on a tracked window that the host still has, closes it,
     * forgets its id and emits one `OnRemoved`; otherwise does nothing.
     */
    method HandleRemove(windowId: int)
      requires Valid()
      modifies this
      ensures Valid()
      ensures HasWindow(old(host), windowId) && windowId in old(tracked) ==>
        var i := FindWindow(old(host), windowId).value;
        host == old(host)[..i] + old(host)[i + 1..] &&
        tracked == old(tracked) - {windowId} &&
        events == old(events) + [OnRemoved(windowId)]
      ensures !(HasWindow(old(host), windowId) && windowId in old(tracked)) ==>
        host == old(host) && tracked == old(tracked) && events == old(events)
      ensures !HasWindow(host, windowId) || windowId !in tracked
    {
      match FindWindow(host, windowId) {
        case None =>
        case Some(i) =>
          if host[i].id in tracked {
            HostInvariantWithout(host, i);
            host := host[..i] + host[i + 1..];
            tracked := tracked - {windowId};
            events := events + [OnRemoved(windowId)];
          }
      }
    }
  }

  /**
   * A second `remove` of the same id is a no-op: two removes leave the state
   * one remove leaves, with at most one `OnRemoved` in all.
   */
  method RemoveTwice(h: Windows, windowId: int)
    requires h.Valid()
    modifies h
    ensures h.Valid()
    ensures HasWindow(old(h.host), windowId) && windowId in old(h.tracked) ==>
      var i := FindWindow(old(h.host), windowId).value;
      h.host == old(h.host)[..i] + old(h.host)[i + 1..] && h.tracked == old(h.tracked) - {windowId}
    ensures !(HasWindow(old(h.host), windowId) && windowId in old(h.tracked)) ==>
      h.host == old(h.host) && h.tracked == old(h.tracked)
    ensures h.events == old(h.events) +
      (if HasWindow(old(h.host), windowId) && windowId in old(h.tracked) then [OnRemoved(windowId)] else [])
  {
    h.HandleRemove(windowId);
    h.HandleRemove(windowId);
  }

  /**
   * A created window is listed by `getAll`; once removed it is no longer
   * listed, and the removal emitted exactly one `OnRemoved`.
   */
  method CreateThenRemove(h: Windows, data: CreateData, newId: int, focusedNow: bool, centre: Position)
    returns (created: Window, listed: seq<Window>, afterwards: seq<Window>)
    requires h.Valid() && !HasWindow(h.host, newId)
    modifies h
    ensures created.id == newId && created in listed
    ensures forall v :: v in afterwards ==> v.id != newId
    ensures h.events == old(h.events) + [OnCreated(created), OnRemoved(newId)]
  {
    var reply := h.HandleCreate(Some(data), newId, focusedNow, centre);
    created := reply.value;
    var w := h.host[|h.host| - 1];
    assert w in h.host && w.id == newId && newId in h.tracked;
    assert created == SnapshotOf(w);
    listed := h.HandleGetAll();
    assert HasWindow(h.host, newId);
    h.HandleRemove(newId);
    afterwards := h.HandleGetAll();
    assert !HasWindow(h.host, newId);
    forall v | v in afterwards
      ensures v.id != newId
    {
      var u :| u in h.host && v == SnapshotOf(u);
    }
  }
}
