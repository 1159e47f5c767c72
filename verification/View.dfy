/** The incrementally maintained view of the kernel's routes
    (crates/polywan/src/system.rs): applying a notification, or re-reading a
    table, agrees with a fresh dump. Route expiries are not part of it. */
module View {
  import opened Model
  import opened Observed
  import opened Planner

  type Routes = map<RouteKey, ObservedRoute>

  function TableOfKey(k: RouteKey): TableKey { TableKey(k.family, k.table) }

  function TableOfRoute(r: ObservedRoute): TableKey { TableKey(r.family, r.table) }

  // ----------------------------------------------------------------- updates

  /** A notified addition or deletion. */
  function Apply(s: Scope, v: Routes, r: ObservedRoute, deleted: bool): Routes
  {
    if !Keeps(s, r) then v else if deleted then v - {KeyOf(s, r)} else v[KeyOf(s, r) := r]
  }

  predicate SameSlot(a: RouteKey, b: RouteKey)
  {
    a.family == b.family && a.table == b.table && a.destination == b.destination && a.metric == b.metric
  }

  /** What a notification is about. */
  datatype Notice = Notice(route: ObservedRoute, deleted: bool, append: bool, replace: bool)

  /** Whether the table has to be re-read, judged before applying. */
  predicate Stale(s: Scope, v: Routes, n: Notice)
  {
    var k, kept := KeyOf(s, n.route), Keeps(s, n.route);
    if IsPolywan(s, n.route.table) then false
    else if n.deleted then kept && k !in v
    else if n.append then kept
    else if n.replace then exists x :: x in v && SameSlot(x, k) && (x != k || !kept)
    else false
  }

  /** The table's entries replaced by those of a dump. */
  ghost predicate IsReread(s: Scope, v: Routes, t: TableKey, dump: seq<ObservedRoute>, v': Routes)
  {
    && (forall k :: TableOfKey(k) != t ==> (k in v' <==> k in v) && (k in v ==> v'[k] == v[k]))
    && (forall k :: k in v' && TableOfKey(k) == t ==> v'[k] in dump && Keeps(s, v'[k]) && KeyOf(s, v'[k]) == k)
    && (forall r :: r in dump && TableOfRoute(r) == t && Keeps(s, r) ==> KeyOf(s, r) in v')
  }

  // -------------------------------------------------------------- agreement

  /** The view of the kernel's routes, except for the tables in `p`. */
  ghost predicate IsView(s: Scope, k: set<ObservedRoute>, v: Routes, p: set<TableKey>)
  {
    && (forall x :: x in v && TableOfKey(x) !in p ==> v[x] in k && Keeps(s, v[x]) && KeyOf(s, v[x]) == x)
    && (forall r :: r in k && TableOfRoute(r) !in p && Keeps(s, r) ==> KeyOf(s, r) in v && v[KeyOf(s, r)] == r)
  }

  /** Kept routes have distinct identities. */
  ghost predicate Distinct(s: Scope, k: set<ObservedRoute>)
  {
    forall a, b :: a in k && b in k && Keeps(s, a) && Keeps(s, b) && KeyOf(s, a) == KeyOf(s, b) ==> a == b
  }

  /** There is one view of a kernel. */
  lemma OneView(s: Scope, k: set<ObservedRoute>, v: Routes, w: Routes)
    requires IsView(s, k, v, {}) && IsView(s, k, w, {})
    ensures v == w
  {
    hide Keeps, KeyOf;
    forall x ensures x in v <==> x in w {
      if x in v { assert v[x] in k; }
      if x in w { assert w[x] in k; }
    }
    forall x | x in v ensures v[x] == w[x] { assert v[x] in k; }
  }

  /** A re-read from a dump of the kernel settles its table. */
  lemma RereadSettles(s: Scope, k: set<ObservedRoute>, v: Routes, p: set<TableKey>, t: TableKey,
                      dump: seq<ObservedRoute>, v': Routes)
    requires IsView(s, k, v, p) && Distinct(s, k) && IsReread(s, v, t, dump, v')
    requires forall r :: r in dump ==> r in k
    requires forall r :: r in k && TableOfRoute(r) == t ==> r in dump
    ensures IsView(s, k, v', p - {t})
  {
    hide Keeps;
    forall r | r in k && TableOfRoute(r) !in p - {t} && Keeps(s, r)
      ensures KeyOf(s, r) in v' && v'[KeyOf(s, r)] == r
    {
      assert TableOfKey(KeyOf(s, r)) == TableOfRoute(r);
      if TableOfRoute(r) == t {
        assert r in dump;
      }
    }
  }

  // ------------------------------------------------------------ kernel changes

  /** What happens to the kernel's routes: additions (`REPLACE` may find nothing
      to replace), deletions, replacements of one route of the same slot, and
      members merged into or taken out of a multipath route. */
  datatype Change =
    | Added(route: ObservedRoute, replaceFlag: bool)
    | Removed(route: ObservedRoute)
    | Replaced(old_: ObservedRoute, new_: ObservedRoute)
    | Merged(old_: ObservedRoute, part: ObservedRoute)
    | Split(old_: ObservedRoute, part: ObservedRoute, rest: ObservedRoute)

  predicate SameRouteSlot(a: ObservedRoute, b: ObservedRoute)
  {
    a.family == b.family && a.table == b.table && a.destination == b.destination && a.metric == b.metric
  }

  /** `all` with the next hops of `part` and `rest`. */
  ghost predicate Joins(part: ObservedRoute, rest: ObservedRoute, all: ObservedRoute)
  {
    && SameRouteSlot(part, all) && SameRouteSlot(rest, all) && |part.nexthops| == 1 && rest.nexthops != []
    && all.nexthopId.None? && part.nexthopId.None? && rest.nexthopId.None?
    && |all.nexthops| == |rest.nexthops| + 1
    && (forall h :: h in all.nexthops <==> h in part.nexthops || h in rest.nexthops)
  }

  function Grown(old_: ObservedRoute, part: ObservedRoute): ObservedRoute
  {
    old_.(nexthops := old_.nexthops + part.nexthops)
  }

  ghost predicate Happens(s: Scope, k: set<ObservedRoute>, c: Change)
  {
    && Distinct(s, k) && Distinct(s, After(k, c))
    && match c
       case Added(_, _) => true
       case Removed(r) => r in k
       case Replaced(o, n) => o in k && SameRouteSlot(o, n)
       case Merged(o, part) => o in k && Joins(part, o, Grown(o, part))
       case Split(o, part, rest) => o in k && Joins(part, rest, o)
  }

  function After(k: set<ObservedRoute>, c: Change): set<ObservedRoute>
  {
    match c
    case Added(r, _) => k + {r}
    case Removed(r) => k - {r}
    case Replaced(o, n) => k - {o} + {n}
    case Merged(o, part) => k - {o} + {Grown(o, part)}
    case Split(o, part, rest) => k - {o} + {rest}
  }

  function NoticeOf(c: Change): Notice
  {
    match c
    case Added(r, replaceFlag) => Notice(r, false, false, replaceFlag)
    case Removed(r) => Notice(r, true, false, false)
    case Replaced(_, n) => Notice(n, false, false, true)
    case Merged(_, part) => Notice(part, false, true, false)
    case Split(_, part, _) => Notice(part, true, false, false)
  }

  function Touched(c: Change): TableKey { TableOfRoute(NoticeOf(c).route) }

  predicate Plain(c: Change) { c.Added? || c.Removed? || c.Replaced? }

  lemma SlotKeys(s: Scope, a: ObservedRoute, b: ObservedRoute)
    requires SameRouteSlot(a, b)
    ensures SameSlot(KeyOf(s, a), KeyOf(s, b)) && TableOfRoute(a) == TableOfRoute(b)
    ensures IsPolywan(s, a.table) ==> KeyOf(s, a) == KeyOf(s, b) && Keeps(s, a) && Keeps(s, b)
  {
    hide IsPolywan;
  }

  /** The tables a change does not touch stay as they were. */
  lemma ElsewhereKept(s: Scope, k: set<ObservedRoute>, v: Routes, p: set<TableKey>, c: Change)
    requires Happens(s, k, c) && IsView(s, k, v, p)
    ensures IsView(s, After(k, c), Apply(s, v, NoticeOf(c).route, NoticeOf(c).deleted), p + {Touched(c)})
  {
    hide Keeps, Distinct;
    var r := NoticeOf(c).route;
    assert TableOfKey(KeyOf(s, r)) == Touched(c);
    match c
    case Replaced(o, n) => SlotKeys(s, o, n);
    case Merged(o, part) => SlotKeys(s, part, o);
    case Split(o, part, rest) => SlotKeys(s, part, o); SlotKeys(s, rest, o);
    case _ =>
  }

  /** Whenever no re-read is asked for, applying a plain notification gives the
      view that a re-read would give. */
  lemma PlainApplies(s: Scope, k: set<ObservedRoute>, v: Routes, p: set<TableKey>, c: Change)
    requires Happens(s, k, c) && Plain(c) && IsView(s, k, v, p) && Touched(c) !in p
    requires !Stale(s, v, NoticeOf(c))
    ensures IsView(s, After(k, c), Apply(s, v, NoticeOf(c).route, NoticeOf(c).deleted), p)
  {
    hide Keeps, KeyOf, IsPolywan;
    if c.Replaced? {
      SlotKeys(s, c.old_, c.new_);
      ReplacedApplies(s, k, v, p, c.old_, c.new_);
    }
  }

  lemma ReplacedApplies(s: Scope, k: set<ObservedRoute>, v: Routes, p: set<TableKey>, o: ObservedRoute, n: ObservedRoute)
    requires Happens(s, k, Replaced(o, n)) && IsView(s, k, v, p) && TableOfRoute(n) !in p
    requires !Stale(s, v, NoticeOf(Replaced(o, n)))
    ensures IsView(s, k - {o} + {n}, Apply(s, v, n, false), p)
  {
    hide Keeps, KeyOf, IsPolywan;
    SlotKeys(s, o, n);
    var v' := Apply(s, v, n, false);
    if Keeps(s, o) {
      assert KeyOf(s, o) in v && v[KeyOf(s, o)] == o;
      assert KeyOf(s, o) == KeyOf(s, n) && Keeps(s, n);
    }
    forall x | x in v' && TableOfKey(x) !in p
      ensures v'[x] in k - {o} + {n} && Keeps(s, v'[x]) && KeyOf(s, v'[x]) == x
    {
      if x in v && v[x] == o { assert KeyOf(s, o) == x; }
    }
  }

  // -------------------------------------------------------- multipath members

  /** A kept route stays kept with fewer next hops, and a route that is not kept
      although its table and destination count has a gateway. */
  lemma KeepsHops(s: Scope, part: ObservedRoute, rest: ObservedRoute, all: ObservedRoute)
    requires Joins(part, rest, all)
    ensures Keeps(s, all) <==> Keeps(s, part) && Keeps(s, rest)
  {
    hide IsPolywan;
    if Keeps(s, part) && Keeps(s, rest) {
      forall i | 0 <= i < |all.nexthops| && !IsPolywan(s, all.table) && !(all.destination.None? && all.table in s.discovery)
        ensures all.nexthops[i].gateway.None?
      {
        assert all.nexthops[i] in all.nexthops;
      }
    }
    if Keeps(s, all) {
      forall i | 0 <= i < |rest.nexthops| ensures rest.nexthops[i] in all.nexthops {
        assert rest.nexthops[i] in rest.nexthops;
      }
      assert part.nexthops[0] in all.nexthops;
    }
  }

  lemma Untouched(s: Scope, k: set<ObservedRoute>, v: Routes, p: set<TableKey>, k': set<ObservedRoute>)
    requires IsView(s, k, v, p)
    requires forall r :: r in k && Keeps(s, r) <==> r in k' && Keeps(s, r)
    ensures IsView(s, k', v, p)
  {
    hide Keeps, KeyOf;
  }

  /** An appended member: the view is right or a re-read is asked for, exactly
      if the member is kept or the route it joins was not. */
  lemma MergedIff(s: Scope, k: set<ObservedRoute>, v: Routes, p: set<TableKey>, o: ObservedRoute, part: ObservedRoute)
    requires Happens(s, k, Merged(o, part)) && IsView(s, k, v, p)
    requires TableOfRoute(part) !in p && !IsPolywan(s, part.table)
    ensures Stale(s, v, NoticeOf(Merged(o, part))) || IsView(s, After(k, Merged(o, part)), Apply(s, v, part, false), p)
       <==> Keeps(s, part) || !Keeps(s, o)
  {
    hide IsPolywan, KeyOf, Keeps, Distinct;
    var all := Grown(o, part);
    KeepsHops(s, part, o, all);
    if !Keeps(s, part) {
      if Keeps(s, o) {
        assert |all.nexthops| != |o.nexthops|;
        assert v[KeyOf(s, o)] == o && o !in k - {o} + {all};
        SlotKeys(s, part, o);
        KeyTable(s, o);
      } else {
        Untouched(s, k, v, p, k - {o} + {all});
      }
    }
  }

  lemma KeyTable(s: Scope, r: ObservedRoute)
    ensures TableOfKey(KeyOf(s, r)) == TableOfRoute(r)
  {
  }

  /** A deleted member: the view is right or a re-read is asked for, exactly if a
      kept member has no entry of its own, or what remains after a member that is
      not kept is not kept or was there already. */
  lemma SplitIff(s: Scope, k: set<ObservedRoute>, v: Routes, p: set<TableKey>, o: ObservedRoute, part: ObservedRoute,
                 rest: ObservedRoute)
    requires Happens(s, k, Split(o, part, rest)) && IsView(s, k, v, p)
    requires TableOfRoute(part) !in p && !IsPolywan(s, part.table)
    ensures Stale(s, v, NoticeOf(Split(o, part, rest)))
            || IsView(s, After(k, Split(o, part, rest)), Apply(s, v, part, true), p)
       <==> if Keeps(s, part) then KeyOf(s, part) !in v else !Keeps(s, rest) || rest in k
  {
    MemberKey(s, o, part, rest);
    hide IsPolywan, KeyOf, Keeps, Distinct;
    KeepsHops(s, part, rest, o);
    SlotKeys(s, part, o);
    SlotKeys(s, rest, o);
    KeyTable(s, part);
    KeyTable(s, rest);
    var k' := k - {o} + {rest};
    if Keeps(s, part) {
      if KeyOf(s, part) in v { assert v[KeyOf(s, part)] in k'; }
    } else if Keeps(s, rest) && rest !in k {
      assert rest in k';
      if KeyOf(s, rest) in v { assert v[KeyOf(s, rest)] in k; }
    } else {
      Untouched(s, k, v, p, k');
    }
  }

  /** A multipath route and one member of it have different identities. */
  lemma MemberKey(s: Scope, all: ObservedRoute, part: ObservedRoute, rest: ObservedRoute)
    requires Joins(part, rest, all) && !IsPolywan(s, part.table)
    ensures KeyOf(s, all) != KeyOf(s, part)
  {
    hide IsPolywan;
  }

  /** The failing sides exist, in any kernel that reports such routes: the member
      with a gateway leaves a route of `main` that the view has to gain. */
  lemma MixedMember()
    ensures var hop, gw := ObservedHop(1, None, 1, false), ObservedHop(2, Some(Ip6(1)), 1, false);
            var all := ObservedRoute(V6, TABLE_MAIN, 3, 1024, Some(Prefix(Ip6(7), 64)), true, None, [hop, gw], None);
            var part, rest := all.(nexthops := [gw]), all.(nexthops := [hop]);
            var s := Scope([], {});
            && Happens(s, {all}, Split(all, part, rest)) && IsView(s, {all}, map[], {})
            && !Stale(s, map[], NoticeOf(Split(all, part, rest)))
            && !IsView(s, After({all}, Split(all, part, rest)), Apply(s, map[], part, true), {})
  {
    var hop, gw := ObservedHop(1, None, 1, false), ObservedHop(2, Some(Ip6(1)), 1, false);
    var all := ObservedRoute(V6, TABLE_MAIN, 3, 1024, Some(Prefix(Ip6(7), 64)), true, None, [hop, gw], None);
    var part, rest := all.(nexthops := [gw]), all.(nexthops := [hop]);
    var s := Scope([], {});
    assert all.nexthops[1] == gw && part.nexthops[0] == gw;
    assert !Keeps(s, all) && !Keeps(s, part) && Keeps(s, rest);
    assert rest in After({all}, Split(all, part, rest));
  }

  /** A member leaves a route while a route of its own, with the same destination
      and metric, stays: the view loses the one that stays. */
  lemma SharedMember()
    ensures var a, b := ObservedHop(1, None, 1, false), ObservedHop(2, None, 1, false);
            var all := ObservedRoute(V4, TABLE_MAIN, 3, 0, Some(Prefix(Ip4(7), 24)), true, None, [a, b], None);
            var part, rest := all.(nexthops := [a]), all.(nexthops := [b]);
            var s := Scope([], {});
            var v := map[KeyOf(s, all) := all, KeyOf(s, part) := part];
            && Happens(s, {all, part}, Split(all, part, rest)) && IsView(s, {all, part}, v, {})
            && !Stale(s, v, NoticeOf(Split(all, part, rest)))
            && !IsView(s, After({all, part}, Split(all, part, rest)), Apply(s, v, part, true), {})
  {
    var a, b := ObservedHop(1, None, 1, false), ObservedHop(2, None, 1, false);
    var all := ObservedRoute(V4, TABLE_MAIN, 3, 0, Some(Prefix(Ip4(7), 24)), true, None, [a, b], None);
    var part, rest := all.(nexthops := [a]), all.(nexthops := [b]);
    var s := Scope([], {});
    var v := map[KeyOf(s, all) := all, KeyOf(s, part) := part];
    assert Keeps(s, all) && Keeps(s, part) && Keeps(s, rest);
    assert Joins(part, rest, all);
    assert Happens(s, {all, part}, Split(all, part, rest)) && IsView(s, {all, part}, v, {});
    SplitIff(s, {all, part}, v, {}, all, part, rest);
  }

  /** A member with a gateway joins a kept route of `main`: the view keeps the
      route that is gone. */
  lemma MixedJoin()
    ensures var hop, gw := ObservedHop(1, None, 1, false), ObservedHop(2, Some(Ip6(1)), 1, false);
            var o := ObservedRoute(V6, TABLE_MAIN, 3, 1024, Some(Prefix(Ip6(7), 64)), true, None, [hop], None);
            var part := o.(nexthops := [gw]);
            var s := Scope([], {});
            var v := map[KeyOf(s, o) := o];
            && Happens(s, {o}, Merged(o, part)) && IsView(s, {o}, v, {})
            && !Stale(s, v, NoticeOf(Merged(o, part)))
            && !IsView(s, After({o}, Merged(o, part)), Apply(s, v, part, false), {})
  {
    var hop, gw := ObservedHop(1, None, 1, false), ObservedHop(2, Some(Ip6(1)), 1, false);
    var o := ObservedRoute(V6, TABLE_MAIN, 3, 1024, Some(Prefix(Ip6(7), 64)), true, None, [hop], None);
    var part := o.(nexthops := [gw]);
    var s := Scope([], {});
    var v := map[KeyOf(s, o) := o];
    assert part.nexthops[0] == gw && Grown(o, part).nexthops == [hop, gw] && [hop, gw][1] == gw;
    assert Keeps(s, o) && !Keeps(s, part) && !Keeps(s, Grown(o, part));
    assert Happens(s, {o}, Merged(o, part)) && IsView(s, {o}, v, {});
    MergedIff(s, {o}, v, {}, o, part);
  }

  // -------------------------------------------------------------------- runs

  datatype World = World(kernel: set<ObservedRoute>, view: Routes, due: set<TableKey>)

  datatype Event = Notified(change: Change) | Reread(table: TableKey, dump: seq<ObservedRoute>)

  /** Changes the view follows: those of a table due for a re-read, plain ones, and
      members of routes outside PolyWAN's tables in the cases above. */
  predicate Followed(s: Scope, w: World, c: Change)
  {
    || Touched(c) in w.due
    || match c
       case Merged(o, part) => !IsPolywan(s, part.table) && (Keeps(s, part) || !Keeps(s, o))
       case Split(o, part, rest) =>
         && !IsPolywan(s, part.table)
         && (if Keeps(s, part) then KeyOf(s, part) !in w.view else !Keeps(s, rest) || rest in w.kernel)
       case _ => true
  }

  /** A notification is judged, then applied; re-reads see the kernel. */
  ghost predicate Takes(s: Scope, w: World, e: Event, w': World)
  {
    match e
    case Notified(c) =>
      var n := NoticeOf(c);
      && Happens(s, w.kernel, c)
      && w' == World(After(w.kernel, c), Apply(s, w.view, n.route, n.deleted),
                     if Stale(s, w.view, n) then w.due + {TableOfRoute(n.route)} else w.due)
    case Reread(t, dump) =>
      && (forall r :: r in dump ==> r in w.kernel)
      && (forall r :: r in w.kernel && TableOfRoute(r) == t ==> r in dump)
      && w'.kernel == w.kernel && w'.due == w.due - {t} && IsReread(s, w.view, t, dump, w'.view)
  }

  /** In PolyWAN's tables, which hold one route each, a member is not followed. */
  lemma OwnMembers(s: Scope, k: set<ObservedRoute>, v: Routes, p: set<TableKey>, c: Change)
    requires Happens(s, k, c) && IsView(s, k, v, p) && (c.Merged? || c.Split?)
    requires Touched(c) !in p && IsPolywan(s, c.part.table)
    ensures !Stale(s, v, NoticeOf(c))
    ensures !IsView(s, After(k, c), Apply(s, v, NoticeOf(c).route, NoticeOf(c).deleted), p)
  {
    hide IsPolywan, Distinct, Keeps, KeyOf;
    var new_ := if c.Merged? then Grown(c.old_, c.part) else c.rest;
    SlotKeys(s, c.part, new_);
    KeyTable(s, c.part);
    assert new_ in After(k, c) && (c.Merged? ==> |new_.nexthops| != |c.part.nexthops|);
  }

  /** A notified change leaves the view in agreement, outside the tables due for a
      re-read, if and only if it is followed. */
  lemma NotifiedIff(s: Scope, w: World, c: Change, w': World)
    requires Distinct(s, w.kernel) && IsView(s, w.kernel, w.view, w.due) && Takes(s, w, Notified(c), w')
    ensures Distinct(s, w'.kernel)
    ensures IsView(s, w'.kernel, w'.view, w'.due) <==> Followed(s, w, c)
  {
    hide IsView, Distinct, Keeps, KeyOf, IsPolywan, Apply, Stale;
    assert Happens(s, w.kernel, c) && Distinct(s, w'.kernel);
    ElsewhereKept(s, w.kernel, w.view, w.due, c);
    if Touched(c) in w.due {
      assert w.due + {Touched(c)} == w.due;
    } else if (c.Merged? || c.Split?) && IsPolywan(s, c.part.table) {
      OwnMembers(s, w.kernel, w.view, w.due, c);
    } else if c.Merged? {
      MergedIff(s, w.kernel, w.view, w.due, c.old_, c.part);
    } else if c.Split? {
      SplitIff(s, w.kernel, w.view, w.due, c.old_, c.part, c.rest);
    } else if !Stale(s, w.view, NoticeOf(c)) {
      PlainApplies(s, w.kernel, w.view, w.due, c);
    }
  }

  lemma StepAgrees(s: Scope, w: World, e: Event, w': World)
    requires Distinct(s, w.kernel) && IsView(s, w.kernel, w.view, w.due) && Takes(s, w, e, w')
    requires e.Notified? ==> Followed(s, w, e.change)
    ensures Distinct(s, w'.kernel) && IsView(s, w'.kernel, w'.view, w'.due)
  {
    hide IsView, Distinct, Followed;
    match e
    case Reread(t, dump) => RereadSettles(s, w.kernel, w.view, w.due, t, dump, w'.view);
    case Notified(c) => NotifiedIff(s, w, c, w');
  }

  ghost predicate IsRun(s: Scope, trace: seq<World>, events: seq<Event>)
  {
    && |trace| == |events| + 1
    && forall i :: 0 <= i < |events| ==>
         Takes(s, trace[i], events[i], trace[i + 1])
         && (events[i].Notified? ==> Followed(s, trace[i], events[i].change))
  }

  /** In every state of every run the view agrees with the kernel outside the
      tables due for a re-read; with none due it is the fresh dump. */
  lemma {:induction false} RunAgrees(s: Scope, trace: seq<World>, events: seq<Event>, i: nat)
    requires IsRun(s, trace, events) && i < |trace|
    requires Distinct(s, trace[0].kernel) && IsView(s, trace[0].kernel, trace[0].view, trace[0].due)
    ensures Distinct(s, trace[i].kernel) && IsView(s, trace[i].kernel, trace[i].view, trace[i].due)
    decreases i
  {
    hide IsView, Distinct, Takes, Followed;
    if i > 0 {
      RunAgrees(s, trace, events, i - 1);
      StepAgrees(s, trace[i - 1], events[i - 1], trace[i]);
    }
  }

  // --------------------------------------------------------------- the cache

  /** The view of the daemon and the tables it has to re-read. */
  class Cache {
    const scope: Scope
    var routes: Routes
    var due: set<TableKey>

    constructor (scope: Scope)
      ensures this.scope == scope && IsView(scope, {}, routes, due) && due == {}
    {
      this.scope, routes, due := scope, map[], {};
    }

    /** Applies a parsed route: after a plain addition to or deletion from the
        kernel's routes, the view is again that of the kernel. */
    method ApplyRoute(r: ObservedRoute, deleted: bool, ghost kernel: set<ObservedRoute>)
      modifies this`routes
      ensures routes == Apply(scope, old(routes), r, deleted)
      ensures old(IsView(scope, kernel, routes, due)) && TableOfRoute(r) !in due
              && Happens(scope, kernel, if deleted then Removed(r) else Added(r, false)) ==>
                IsView(scope, if deleted then kernel - {r} else kernel + {r}, routes, due)
    {
      ghost var c := if deleted then Removed(r) else Added(r, false);
      if IsView(scope, kernel, routes, due) && TableOfRoute(r) !in due && Happens(scope, kernel, c) {
        PlainUnflagged(scope, kernel, routes, due, c);
        PlainApplies(scope, kernel, routes, due, c);
      }
      if !Keeps(scope, r) {
        return;
      }
      var key := KeyOf(scope, r);
      if deleted {
        routes := routes - {key};
      } else {
        routes := routes[key := r];
      }
    }

    /** The table to re-read after a notification, if any. */
    function StaleAfter(n: Notice): Option<TableKey>
      reads this
    {
      if Stale(scope, routes, n) then Some(TableOfRoute(n.route)) else None
    }

    /** A notification: judged against the view, then applied. For any kernel
        change it may report, the view stays in agreement exactly if the change
        is one that is followed. */
    method Notify(n: Notice, ghost kernel: set<ObservedRoute>, ghost c: Change)
      modifies this
      ensures routes == Apply(scope, old(routes), n.route, n.deleted)
      ensures due == old(due) + if old(Stale(scope, routes, n)) then {TableOfRoute(n.route)} else {}
      ensures old(IsView(scope, kernel, routes, due)) && Happens(scope, kernel, c) && NoticeOf(c) == n ==>
                (IsView(scope, After(kernel, c), routes, due)
                 <==> Followed(scope, World(kernel, old(routes), old(due)), c))
    {
      hide Stale, Apply, IsView, Followed, Distinct, Happens;
      ghost var before := World(kernel, routes, due);
      var t := StaleAfter(n);
      ApplyRoute(n.route, n.deleted, kernel);
      if t.Some? {
        due := due + {t.value};
      }
      if IsView(scope, kernel, before.view, before.due) && Happens(scope, kernel, c) && NoticeOf(c) == n {
        HappensDistinct(scope, kernel, c);
        NotifiedIff(scope, before, c, World(After(kernel, c), routes, due));
      }
    }

    /** Replaces every route of a table with a fresh dump: with the kernel's routes
        in it, the table is settled. */
    method ReplaceTable(t: TableKey, dump: seq<ObservedRoute>, ghost kernel: set<ObservedRoute>)
      modifies this
      ensures IsReread(scope, old(routes), t, dump, routes) && due == old(due) - {t}
      ensures old(IsView(scope, kernel, routes, due)) && Distinct(scope, kernel)
              && (forall r :: r in dump ==> r in kernel)
              && (forall r :: r in kernel && TableOfRoute(r) == t ==> r in dump) ==>
                IsView(scope, kernel, routes, due)
    {
      ReadTable(t, dump);
      due := due - {t};
      if old(IsView(scope, kernel, routes, due)) && Distinct(scope, kernel) && (forall r :: r in dump ==> r in kernel)
         && (forall r :: r in kernel && TableOfRoute(r) == t ==> r in dump) {
        RereadSettles(scope, kernel, old(routes), old(due), t, dump, routes);
      }
    }

    method ReadTable(t: TableKey, dump: seq<ObservedRoute>)
      modifies this`routes
      ensures IsReread(scope, old(routes), t, dump, routes)
    {
      routes := map k | k in routes && TableOfKey(k) != t :: routes[k];
      for i := 0 to |dump|
        invariant IsReread(scope, old(routes), t, dump[..i], routes)
      {
        var r := dump[i];
        if TableOfRoute(r) == t && Keeps(scope, r) {
          routes := routes[KeyOf(scope, r) := r];
        }
        assert dump[..i + 1] == dump[..i] + [r];
      }
      assert dump[..|dump|] == dump;
    }
  }

  lemma HappensDistinct(s: Scope, k: set<ObservedRoute>, c: Change)
    requires Happens(s, k, c)
    ensures Distinct(s, k)
  {
  }

  /** A plain addition or deletion never asks for a re-read. */
  lemma PlainUnflagged(s: Scope, k: set<ObservedRoute>, v: Routes, p: set<TableKey>, c: Change)
    requires Happens(s, k, c) && IsView(s, k, v, p) && Touched(c) !in p
    requires c.Removed? || (c.Added? && !c.replaceFlag)
    ensures !Stale(s, v, NoticeOf(c))
  {
    hide Keeps, KeyOf, IsPolywan;
  }
}
