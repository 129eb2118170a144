/** The extension's module-level state and its lifecycle: enable loads the surfaces
    and settings and patches the two host entry points, newIcon registers an
    (icon, timeout, repaint connection) triple per dynamic icon, and disable puts the
    entry points back and releases everything through destroyObjects.

    The host's side is modelled by the handles of the objects it still holds alive
    (drawing areas, pending timeouts, signal connections), drawn from a counter so
    that each is new when handed out, plus what each timeout and settings
    connection was created to do. */
module Extension {
  import opened IconSize
  import opened Dispatch

  /** What a patched prototype slot holds. `Undefined` is the value of the saved
      originals before the first enable. */
  datatype Impl = Undefined | HostImpl(id: nat) | PatchedInit | PatchedCreate

  /** The settings keys the extension listens to. */
  datatype Key = CalendarKey | ShowWeekdayKey | ShowMonthKey | ClocksKey | ShowSecondsKey

  /** A dynamic icon widget: the size newIcon stored (device pixels, or -1), the size
      it gave the widget, its name, which repaint callback it is connected to, and
      how many repaints have been queued on it. */
  datatype DrawingArea = DrawingArea(
    requestedIconSize: int,
    side: int,
    name: string,
    kind: Kind,
    repaints: nat)

  datatype Triple = Triple(icon: nat, timeout: nat, connection: nat)

  datatype Ext = Ext(
    flags: Flags,
    surfacesLoaded: bool,
    settingsHeld: bool,
    connects: seq<nat>,
    registry: seq<Triple>,
    originalInit: Impl,
    originalCreate: Impl,
    initSlot: Impl,
    createSlot: Impl,
    icons: map<nat, DrawingArea>,
    timers: map<nat, nat>,
    watches: map<nat, Key>,
    live: set<nat>,
    next: nat)

  /** Before the first enable: nothing loaded, the host's own methods in the slots. */
  function Initial(init: nat, create: nat): Ext {
    Ext(Flags(false, false, false, false, false), false, false, [], [], Undefined, Undefined,
        HostImpl(init), HostImpl(create), map[], map[], map[], {}, 0)
  }

  /** The handles destroyObjects releases for the registry, in its order: per triple
      the timeout (source_remove), the connection (disconnect), then the icon
      (destroy). */
  function Flatten(reg: seq<Triple>): seq<nat>
    decreases |reg|
  {
    if |reg| == 0 then []
    else
      var t := reg[|reg| - 1];
      Flatten(reg[..|reg| - 1]) + [t.timeout, t.connection, t.icon]
  }

  function Elements(s: seq<nat>): set<nat> {
    set i | 0 <= i < |s| :: s[i]
  }

  predicate Distinct(s: seq<nat>) {
    forall i, j :: 0 <= i < j < |s| ==> s[i] != s[j]
  }

  predicate Below(s: seq<nat>, n: nat) {
    forall i :: 0 <= i < |s| ==> s[i] < n
  }

  /** Every registered timeout repaints its own triple's icon. */
  predicate Wired(e: Ext) {
    forall t :: t in e.registry ==> t.timeout in e.timers && e.timers[t.timeout] == t.icon && t.icon in e.icons
  }

  /** The registry invariant: every registered handle and every settings connection
      is alive, no handle is registered twice, nothing else the extension made is
      alive, every handle is below the counter, and every registered timeout is
      wired to its icon. */
  predicate Good(e: Ext) {
    var hs := Flatten(e.registry);
    && Wired(e)
    && Distinct(hs) && Distinct(e.connects)
    && Elements(hs) !! Elements(e.connects)
    && e.live == Elements(hs) + Elements(e.connects)
    && Below(hs, e.next) && Below(e.connects, e.next)
  }

  lemma InitialGood(init: nat, create: nat)
    ensures Good(Initial(init, create))
  {
  }

  lemma DistinctConcat(a: seq<nat>, b: seq<nat>)
    requires Distinct(a) && Distinct(b) && Elements(a) !! Elements(b)
    ensures Distinct(a + b)
    ensures Elements(a + b) == Elements(a) + Elements(b)
  {
    var s := a + b;
    forall i, j | 0 <= i < j < |s|
      ensures s[i] != s[j]
    {
      if j >= |a| && i < |a| {
        assert s[i] in Elements(a);
        assert s[j] == b[j - |a|];
        assert s[j] in Elements(b);
      } else if i >= |a| {
        assert s[i] == b[i - |a|] && s[j] == b[j - |a|];
      }
    }
    forall x | x in Elements(a) + Elements(b)
      ensures x in Elements(a + b)
    {
      if x in Elements(a) {
        var i :| 0 <= i < |a| && a[i] == x;
        assert s[i] == x;
      } else {
        var i :| 0 <= i < |b| && b[i] == x;
        assert s[|a| + i] == x;
      }
    }
  }

  /** Handles at or above the counter are new: none of them is in a list kept below
      it. */
  lemma FreshHandles(a: seq<nat>, added: seq<nat>, n: nat)
    requires Distinct(a) && Below(a, n) && Distinct(added)
    requires forall j :: 0 <= j < |added| ==> n <= added[j]
    ensures Distinct(a + added)
    ensures Elements(a + added) == Elements(a) + Elements(added)
    ensures Elements(a) !! Elements(added)
  {
    DistinctConcat(a, added);
  }

  lemma BelowConcat(a: seq<nat>, b: seq<nat>, m: nat, n: nat)
    requires Below(a, m) && Below(b, n) && m <= n
    ensures Below(a + b, n)
  {
    forall i | 0 <= i < |a + b|
      ensures (a + b)[i] < n
    {
      if i < |a| {
        assert (a + b)[i] == a[i];
      } else {
        assert (a + b)[i] == b[i - |a|];
      }
    }
  }

  lemma {:induction false} FlattenAppend(a: seq<Triple>, b: seq<Triple>)
    ensures Flatten(a + b) == Flatten(a) + Flatten(b)
    decreases |b|
  {
    if |b| == 0 {
      assert a + b == a;
    } else {
      var b' := b[..|b| - 1];
      assert (a + b)[..|a + b| - 1] == a + b';
      assert (a + b)[|a + b| - 1] == b[|b| - 1];
      FlattenAppend(a, b');
    }
  }

  /** The handles of triple `i` sit between those of the triples before and after
      it, and dropping the triple drops exactly its three handles. */
  lemma {:induction false} FlattenSplit(reg: seq<Triple>, i: nat)
    requires i < |reg|
    ensures var t := reg[i];
      && Flatten(reg) == Flatten(reg[..i]) + [t.timeout, t.connection, t.icon] + Flatten(reg[i + 1..])
      && Flatten(reg[..i] + reg[i + 1..]) == Flatten(reg[..i]) + Flatten(reg[i + 1..])
  {
    var t := reg[i];
    assert reg == reg[..i] + [t] + reg[i + 1..];
    assert Flatten([t]) == [t.timeout, t.connection, t.icon] by {
      assert [t][..0] == [];
    }
    FlattenAppend(reg[..i] + [t], reg[i + 1..]);
    FlattenAppend(reg[..i], [t]);
    FlattenAppend(reg[..i], reg[i + 1..]);
  }

  /** A registered triple's three handles are among the registry's handles. */
  lemma HandlesListed(reg: seq<Triple>, u: Triple)
    requires u in reg
    ensures u.timeout in Elements(Flatten(reg)) && u.connection in Elements(Flatten(reg))
    ensures u.icon in Elements(Flatten(reg))
  {
    var i :| 0 <= i < |reg| && reg[i] == u;
    FlattenSplit(reg, i);
    var k := |Flatten(reg[..i])|;
    assert Flatten(reg)[k] == u.timeout && Flatten(reg)[k + 1] == u.connection && Flatten(reg)[k + 2] == u.icon;
  }

  /** Taking a middle part out of a list of distinct handles leaves distinct handles,
      namely all the others. */
  lemma DropMiddle(a: seq<nat>, m: seq<nat>, b: seq<nat>, n: nat)
    requires Distinct(a + m + b) && Below(a + m + b, n)
    ensures Distinct(a + b) && Below(a + b, n)
    ensures Elements(m) <= Elements(a + m + b)
    ensures Elements(a + b) == Elements(a + m + b) - Elements(m)
  {
    var s := a + m + b;
    var t := a + b;
    forall i, j | 0 <= i < j < |t|
      ensures t[i] != t[j]
    {
      var i' := if i < |a| then i else i + |m|;
      var j' := if j < |a| then j else j + |m|;
      assert t[i] == s[i'] && t[j] == s[j'];
    }
    forall i | 0 <= i < |t|
      ensures t[i] < n
    {
      var i' := if i < |a| then i else i + |m|;
      assert t[i] == s[i'];
    }
    forall x | x in Elements(m)
      ensures x in Elements(s)
    {
      var k :| 0 <= k < |m| && m[k] == x;
      assert s[|a| + k] == x;
    }
    forall x | x in Elements(t)
      ensures x in Elements(s) && x !in Elements(m)
    {
      var i :| 0 <= i < |t| && t[i] == x;
      var i' := if i < |a| then i else i + |m|;
      assert s[i'] == x;
      forall k | 0 <= k < |m|
        ensures m[k] != x
      {
        assert s[|a| + k] == m[k];
      }
    }
    forall x | x in Elements(s) && x !in Elements(m)
      ensures x in Elements(t)
    {
      var i :| 0 <= i < |s| && s[i] == x;
      if i < |a| {
        assert t[i] == x;
      } else if i >= |a| + |m| {
        assert t[i - |m|] == x;
      }
    }
  }

  /** newIcon: a new drawing area sized to the stored size, a 1-second timeout that
      repaints it, its repaint connection, one queued repaint, and the triple
      appended to the registry. */
  function NewIcon(e: Ext, iconSize: int, scaleFactor: nat, kind: Kind): (r: (Ext, nat))
    ensures var (e', icon) := r;
      && |e'.registry| == |e.registry| + 1
      && e'.registry[..|e.registry|] == e.registry
      && e'.registry[|e.registry|].icon == icon
      && icon in e'.live && icon in e'.icons
      && e'.icons[icon].requestedIconSize == StoredSize(iconSize, scaleFactor)
      && e'.icons[icon].side == StoredSize(iconSize, scaleFactor)
      && e'.icons[icon].kind == kind
      && e'.icons[icon].repaints == 1
      && e'.registry[|e.registry|].timeout in e'.timers
      && e'.timers[e'.registry[|e.registry|].timeout] == icon
      && e.live <= e'.live
      && (forall h :: h in e.icons && h != icon ==> h in e'.icons && e'.icons[h] == e.icons[h])
      && (forall h :: h in e.timers && h != e'.registry[|e.registry|].timeout ==>
            h in e'.timers && e'.timers[h] == e.timers[h])
      && e'.watches == e.watches
      && e'.flags == e.flags && e'.connects == e.connects
      && e'.initSlot == e.initSlot && e'.createSlot == e.createSlot
      && e'.originalInit == e.originalInit && e'.originalCreate == e.originalCreate
    ensures Good(e) ==> Good(r.0) && r.1 !in e.live
  {
    var icon := e.next;
    var timeout := e.next + 1;
    var connection := e.next + 2;
    var side := StoredSize(iconSize, scaleFactor);
    var e' := e.(icons := e.icons[icon := DrawingArea(side, side, WidgetName(kind), kind, 1)],
                 timers := e.timers[timeout := icon],
                 live := e.live + {icon, timeout, connection},
                 registry := e.registry + [Triple(icon, timeout, connection)],
                 next := e.next + 3);
    NewIconGood(e, e', Triple(icon, timeout, connection));
    (e', icon)
  }

  lemma NewIconGood(e: Ext, e': Ext, t: Triple)
    requires t == Triple(e.next, e.next + 1, e.next + 2)
    requires e'.registry == e.registry + [t] && e'.connects == e.connects && e'.next == e.next + 3
    requires e'.live == e.live + {t.icon, t.timeout, t.connection}
    requires e'.timers == e.timers[t.timeout := t.icon] && e'.icons.Keys == e.icons.Keys + {t.icon}
    ensures Good(e) ==> Good(e') && t.icon !in e.live
  {
    if Good(e) {
      NewIconWired(e, e', t);
      var hs := Flatten(e.registry);
      assert (e.registry + [t])[..|e.registry|] == e.registry;
      var n := e.next;
      assert Flatten(e'.registry) == hs + [n + 1, n + 2, n];
      FreshTriple(hs, e.connects, n);
      assert e'.live == Elements(hs + [n + 1, n + 2, n]) + Elements(e'.connects);
    }
  }

  /** The new triple's timeout is wired to its icon, and the older timeouts keep
      their icons because the new handles are fresh. */
  lemma NewIconWired(e: Ext, e': Ext, t: Triple)
    requires Good(e) && t == Triple(e.next, e.next + 1, e.next + 2)
    requires e'.registry == e.registry + [t]
    requires e'.timers == e.timers[t.timeout := t.icon] && e'.icons.Keys == e.icons.Keys + {t.icon}
    ensures Wired(e')
  {
    forall u | u in e'.registry
      ensures u.timeout in e'.timers && e'.timers[u.timeout] == u.icon && u.icon in e'.icons
    {
      if u != t {
        assert u in e.registry;
        HandlesListed(e.registry, u);
        var j :| 0 <= j < |Flatten(e.registry)| && Flatten(e.registry)[j] == u.timeout;
      }
    }
  }

  /** Appending three handles numbered from the counter to handles that are distinct,
      disjoint from the connections and below the counter keeps them so, below the
      advanced counter; the first of the three was not in use. */
  lemma FreshTriple(hs: seq<nat>, c: seq<nat>, n: nat)
    requires Distinct(hs) && Distinct(c) && Elements(hs) !! Elements(c)
    requires Below(hs, n) && Below(c, n)
    ensures Distinct(hs + [n + 1, n + 2, n])
    ensures Elements(hs + [n + 1, n + 2, n]) == Elements(hs) + {n, n + 1, n + 2}
    ensures Elements(hs + [n + 1, n + 2, n]) !! Elements(c)
    ensures Below(hs + [n + 1, n + 2, n], n + 3) && Below(c, n + 3)
    ensures n !in Elements(hs) + Elements(c)
  {
    var added := [n + 1, n + 2, n];
    FreshHandles(hs, added, n);
    assert added[0] == n + 1 && added[1] == n + 2 && added[2] == n;
    assert Elements(added) == {n, n + 1, n + 2};
    BelowConcat(hs, added, n, n + 3);
  }

  /** What a repaint timeout does when it fires: queue one more repaint on the icon
      it was created for, as long as the timeout has not been removed. */
  function Tick(e: Ext, timeout: nat): (r: Ext)
    ensures timeout !in e.live ==> r == e
    ensures r == e.(icons := r.icons) && r.icons.Keys == e.icons.Keys
    ensures timeout in e.live && timeout in e.timers && e.timers[timeout] in e.icons ==>
      r.icons[e.timers[timeout]].repaints == e.icons[e.timers[timeout]].repaints + 1
    ensures forall h :: h in e.icons && (timeout !in e.live || timeout !in e.timers || h != e.timers[timeout]) ==>
      r.icons[h] == e.icons[h]
  {
    if timeout in e.live && timeout in e.timers && e.timers[timeout] in e.icons then
      var h := e.timers[timeout];
      e.(icons := e.icons[h := e.icons[h].(repaints := e.icons[h].repaints + 1)])
    else e
  }

  /** In a state satisfying the registry invariant, every registered timeout is live
      and, when it fires, repaints its own icon and no other. */
  lemma RegisteredTimeoutRepaints(e: Ext, i: nat)
    requires Good(e) && i < |e.registry|
    ensures var t := e.registry[i];
      && t.timeout in e.live && t.icon in e.icons
      && Tick(e, t.timeout).icons[t.icon].repaints == e.icons[t.icon].repaints + 1
      && forall h :: h in e.icons && h != t.icon ==> Tick(e, t.timeout).icons[h] == e.icons[h]
  {
    var t := e.registry[i];
    HandlesListed(e.registry, t);
    assert t in e.registry;
  }

  /** A new icon leaves the icons made before it alone: the timeout of a registered
      icon, wired to that icon, still repaints it afterwards. */
  lemma EarlierTimeoutStillRepaints(e: Ext, i: nat, iconSize: int, scaleFactor: nat, kind: Kind)
    requires Good(e) && i < |e.registry|
    ensures var t := e.registry[i];
      var e' := NewIcon(e, iconSize, scaleFactor, kind).0;
      Tick(e', t.timeout).icons[t.icon].repaints == e.icons[t.icon].repaints + 1
  {
    var t := e.registry[i];
    var (e', icon) := NewIcon(e, iconSize, scaleFactor, kind);
    var a := Flatten(e.registry[..i]);
    FlattenSplit(e.registry, i);
    assert Flatten(e.registry)[|a|] == t.timeout && Flatten(e.registry)[|a| + 2] == t.icon;
    assert t.timeout in e.live by {
      assert t.timeout in Elements(Flatten(e.registry));
    }
    assert t.icon < e.next && t.timeout < e.next;
  }

  /** The timeout newIcon starts is wired to the icon it returns: when it fires, that
      icon gets one more queued repaint. */
  lemma TimerRepaintsIcon(e: Ext, iconSize: int, scaleFactor: nat, kind: Kind)
    requires Good(e)
    ensures var (e', icon) := NewIcon(e, iconSize, scaleFactor, kind);
      var t := e'.registry[|e.registry|];
      t.timeout in e'.live && Tick(e', t.timeout).icons[icon].repaints == 2
  {
  }

  /** The value a settings key holds in the callbacks' copy of the settings. */
  function Get(f: Flags, k: Key): bool {
    match k
    case CalendarKey => f.enableCalendar
    case ShowWeekdayKey => f.showWeekday
    case ShowMonthKey => f.showMonth
    case ClocksKey => f.enableClocks
    case ShowSecondsKey => f.showSeconds
  }

  /** One `changed::<key>` handler assigns its own variable. */
  function Put(f: Flags, k: Key, v: bool): (r: Flags)
    ensures Get(r, k) == v
    ensures forall k' :: k' != k ==> Get(r, k') == Get(f, k')
  {
    match k
    case CalendarKey => f.(enableCalendar := v)
    case ShowWeekdayKey => f.(showWeekday := v)
    case ShowMonthKey => f.(showMonth := v)
    case ClocksKey => f.(enableClocks := v)
    case ShowSecondsKey => f.(showSeconds := v)
  }

  /** Some live settings connection listens for changes of `k`. */
  predicate Watching(e: Ext, k: Key) {
    exists c :: c in e.live && c in e.watches && e.watches[c] == k
  }

  /** A settings key changed to `value`: the connected handler, if any, copies it into
      the flags; the redisplay two of them trigger is not modelled. */
  function SettingChanged(e: Ext, key: Key, value: bool): (r: Ext)
    ensures Watching(e, key) ==> Get(r.flags, key) == value
    ensures !Watching(e, key) ==> r == e
    ensures forall k :: k != key ==> Get(r.flags, k) == Get(e.flags, k)
    ensures r == e.(flags := r.flags)
  {
    if Watching(e, key) then e.(flags := Put(e.flags, key, value)) else e
  }

  /** The five settings connections loadSettings makes, one per key. */
  function SettingsHandles(n: nat): seq<nat> {
    [n, n + 1, n + 2, n + 3, n + 4]
  }

  /** The five settings connections are numbered from the counter upwards. */
  lemma SettingsHandlesBelow(n: nat)
    ensures Below(SettingsHandles(n), n + 5)
    ensures forall j :: 0 <= j < |SettingsHandles(n)| ==> n <= SettingsHandles(n)[j]
  {
  }

  /** enable: load the surfaces, read the stored settings and connect a handler to
      each key, save what the two prototype slots hold, and put the patched entry
      points in them. */
  function Enable(e: Ext, stored: Flags): (r: Ext)
    ensures r.surfacesLoaded && r.settingsHeld
    ensures r.flags == stored
    ensures r.originalInit == e.initSlot && r.originalCreate == e.createSlot
    ensures r.initSlot == PatchedInit && r.createSlot == PatchedCreate
    ensures forall k :: Watching(r, k)
    ensures r.registry == e.registry && r.icons == e.icons && r.timers == e.timers
    ensures Good(e) ==> Good(r)
  {
    var n := e.next;
    var added := SettingsHandles(n);
    var r := e.(surfacesLoaded := true, settingsHeld := true, flags := stored,
                connects := e.connects + added,
                watches := e.watches[n := CalendarKey][n + 1 := ShowWeekdayKey][n + 2 := ShowMonthKey]
                                    [n + 3 := ClocksKey][n + 4 := ShowSecondsKey],
                live := e.live + {n, n + 1, n + 2, n + 3, n + 4},
                originalInit := e.initSlot, originalCreate := e.createSlot,
                initSlot := PatchedInit, createSlot := PatchedCreate,
                next := n + 5);
    EnableGood(e, r);
    EnableWatches(r, n);
    r
  }

  lemma EnableWatches(r: Ext, n: nat)
    requires {n, n + 1, n + 2, n + 3, n + 4} <= r.live
    requires forall i :: n <= i < n + 5 ==> i in r.watches
    requires r.watches[n] == CalendarKey && r.watches[n + 1] == ShowWeekdayKey && r.watches[n + 2] == ShowMonthKey
    requires r.watches[n + 3] == ClocksKey && r.watches[n + 4] == ShowSecondsKey
    ensures forall k :: Watching(r, k)
  {
    forall k
      ensures Watching(r, k)
    {
      match k
      case CalendarKey => assert n in r.live;
      case ShowWeekdayKey => assert n + 1 in r.live;
      case ShowMonthKey => assert n + 2 in r.live;
      case ClocksKey => assert n + 3 in r.live;
      case ShowSecondsKey => assert n + 4 in r.live;
    }
  }

  lemma EnableGood(e: Ext, r: Ext)
    requires r.registry == e.registry && r.next == e.next + 5
    requires r.icons == e.icons && r.timers == e.timers
    requires r.connects == e.connects + SettingsHandles(e.next)
    requires r.live == e.live + {e.next, e.next + 1, e.next + 2, e.next + 3, e.next + 4}
    ensures Good(e) ==> Good(r)
  {
    if Good(e) {
      SettingsConnect(Flatten(e.registry), e.connects, e.next);
      assert Wired(r);
    }
  }

  /** Appending the five settings connections, numbered from the counter, to
      connections that are distinct, disjoint from the registered handles and below
      the counter keeps them so, below the advanced counter. */
  lemma SettingsConnect(hs: seq<nat>, c: seq<nat>, n: nat)
    requires Distinct(hs) && Distinct(c) && Elements(hs) !! Elements(c)
    requires Below(hs, n) && Below(c, n)
    ensures Distinct(c + SettingsHandles(n))
    ensures Elements(hs) !! Elements(c + SettingsHandles(n))
    ensures Elements(c + SettingsHandles(n)) == Elements(c) + {n, n + 1, n + 2, n + 3, n + 4}
    ensures Below(hs, n + 5) && Below(c + SettingsHandles(n), n + 5)
  {
    var added := SettingsHandles(n);
    SettingsHandlesBelow(n);
    FreshHandles(c, added, n);
    assert Elements(added) == {n, n + 1, n + 2, n + 3, n + 4} by {
      assert added[0] == n && added[1] == n + 1 && added[2] == n + 2;
      assert added[3] == n + 3 && added[4] == n + 4;
    }
    assert Elements(hs) !! Elements(added) by {
      forall i | 0 <= i < |hs|
        ensures hs[i] !in Elements(added)
      {
      }
    }
    BelowConcat(c, added, n, n + 5);
  }

  /** A widget in a search provider's content box. */
  datatype Widget = HostWidget(id: nat) | IconWidget(handle: nat)

  /** What createIconTexture hands back: a dynamic icon, or whatever the saved original
      makes. */
  datatype Texture = DynamicTexture(handle: nat) | OriginalTexture(maker: Impl)

  /** The patched create_icon_texture. */
  function CreateIconTexture(e: Ext, appId: string, iconSize: int, scaleFactor: nat): (r: (Ext, Texture))
    ensures r.1.DynamicTexture? <==> Choose(e.flags, appId).Dynamic?
    ensures Choose(e.flags, appId).Original? ==> r == (e, OriginalTexture(e.originalCreate))
    ensures Choose(e.flags, appId).Dynamic? ==>
      var kind := Choose(e.flags, appId).kind;
      var icon := r.1.handle;
      && |r.0.registry| == |e.registry| + 1 && r.0.registry[|e.registry|].icon == icon
      && icon in r.0.icons && r.0.icons[icon].kind == kind
      && r.0.icons[icon].requestedIconSize == StoredSize(iconSize, scaleFactor)
      && e.live <= r.0.live
      && (forall h :: h in e.icons && h != icon ==> h in r.0.icons && r.0.icons[h] == e.icons[h])
      && (forall h :: h in e.timers && h != r.0.registry[|e.registry|].timeout ==>
            h in r.0.timers && r.0.timers[h] == e.timers[h])
      && r.0.watches == e.watches
    ensures Good(e) ==> Good(r.0)
    ensures r.0.flags == e.flags && r.0.initSlot == e.initSlot && r.0.createSlot == e.createSlot
    ensures r.0.originalInit == e.originalInit && r.0.originalCreate == e.originalCreate
    ensures r.0.connects == e.connects
  {
    match Choose(e.flags, appId)
    case Dynamic(kind) =>
      var (e', icon) := NewIcon(e, iconSize, scaleFactor, kind);
      (e', DynamicTexture(icon))
    case Original => (e, OriginalTexture(e.originalCreate))
  }

  /** The patched ProviderInfo._init, run on the content the saved original built: for
      the calendar or clocks provider the first child is replaced by a new dynamic
      icon (when there is no first child the replacement has nothing to replace and
      the content stays as it was, though the icon is still registered). */
  function InitProviderInfo(e: Ext, providerId: string, content: seq<Widget>, providerIconSize: int, scaleFactor: nat)
    : (r: (Ext, seq<Widget>))
    ensures |r.1| == |content|
    ensures forall i :: 1 <= i < |content| ==> r.1[i] == content[i]
    ensures Choose(e.flags, providerId).Original? ==> r == (e, content)
    ensures Choose(e.flags, providerId).Dynamic? ==>
      |r.0.registry| == |e.registry| + 1 &&
      var kind := Choose(e.flags, providerId).kind;
      var icon := r.0.registry[|e.registry|].icon;
      && icon in r.0.icons && r.0.icons[icon].kind == kind
      && r.0.icons[icon].requestedIconSize == StoredSize(providerIconSize, scaleFactor)
      && (|content| > 0 ==> r.1[0] == IconWidget(icon))
      && e.live <= r.0.live
      && (forall h :: h in e.icons && h != icon ==> h in r.0.icons && r.0.icons[h] == e.icons[h])
      && (forall h :: h in e.timers && h != r.0.registry[|e.registry|].timeout ==>
            h in r.0.timers && r.0.timers[h] == e.timers[h])
      && r.0.watches == e.watches
    ensures Good(e) ==> Good(r.0)
    ensures r.0.flags == e.flags && r.0.initSlot == e.initSlot && r.0.createSlot == e.createSlot
    ensures r.0.originalInit == e.originalInit && r.0.originalCreate == e.originalCreate
    ensures r.0.connects == e.connects
  {
    match Choose(e.flags, providerId)
    case Dynamic(kind) =>
      var (e', icon) := NewIcon(e, providerIconSize, scaleFactor, kind);
      (e', if |content| > 0 then content[0 := IconWidget(icon)] else content)
    case Original => (e, content)
  }

  /** Release each handle in turn, counting a fault for every one that is no longer
      alive when its turn comes (a second removal of a timeout, a second disconnect
      or destroy). */
  function ReleaseAll(live: set<nat>, handles: seq<nat>): (r: (set<nat>, nat))
    ensures r.0 == live - Elements(handles)
    ensures r.1 == 0 <==> Distinct(handles) && Elements(handles) <= live
    ensures r.1 <= |handles|
    decreases |handles|
  {
    if |handles| == 0 then (live, 0)
    else
      var h := handles[0];
      var rest := ReleaseAll(live - {h}, handles[1..]);
      ElementsCons(handles);
      (rest.0, rest.1 + (if h in live then 0 else 1))
  }

  lemma ElementsCons(s: seq<nat>)
    requires |s| > 0
    ensures Elements(s) == {s[0]} + Elements(s[1..])
    ensures Distinct(s) <==> s[0] !in Elements(s[1..]) && Distinct(s[1..])
  {
    assert forall i :: 1 <= i < |s| ==> s[i] == s[1..][i - 1];
    if s[0] !in Elements(s[1..]) && Distinct(s[1..]) {
      forall i, j | 0 <= i < j < |s|
        ensures s[i] != s[j]
      {
        if i > 0 {
          assert s[i] == s[1..][i - 1] && s[j] == s[1..][j - 1];
        }
      }
    }
  }

  /** The registry's handles followed by the settings connections: together they are
      the two parts, and with disjoint distinct parts they are distinct. */
  lemma ReleaseOrder(a: seq<nat>, b: seq<nat>)
    ensures Elements(a + b) == Elements(a) + Elements(b)
    ensures Distinct(a) && Distinct(b) && Elements(a) !! Elements(b) ==> Distinct(a + b)
  {
    var hs := a + b;
    forall x | x in Elements(hs)
      ensures x in Elements(a) + Elements(b)
    {
      var i :| 0 <= i < |hs| && hs[i] == x;
      if i >= |a| {
        assert b[i - |a|] == x;
      }
    }
    forall x | x in Elements(a) + Elements(b)
      ensures x in Elements(hs)
    {
      if x in Elements(a) {
        var i :| 0 <= i < |a| && a[i] == x;
        assert hs[i] == x;
      } else {
        var i :| 0 <= i < |b| && b[i] == x;
        assert hs[|a| + i] == x;
      }
    }
    if Distinct(a) && Distinct(b) && Elements(a) !! Elements(b) {
      DistinctConcat(a, b);
    }
  }

  /** destroyObjects: remove every registered timeout, disconnect and destroy every
      registered icon, disconnect every settings handler, then drop the surfaces, the
      settings and both lists. */
  function DestroyObjects(e: Ext): (r: (Ext, nat))
    ensures r.0.registry == [] && r.0.connects == []
    ensures !r.0.surfacesLoaded && !r.0.settingsHeld
    ensures r.0.live == e.live - Elements(Flatten(e.registry)) - Elements(e.connects)
    ensures r.1 == 0 <==> Distinct(Flatten(e.registry) + e.connects) && Elements(Flatten(e.registry) + e.connects) <= e.live
    ensures Good(e) ==> r.1 == 0 && r.0.live == {} && Good(r.0)
    ensures r.0.initSlot == e.initSlot && r.0.createSlot == e.createSlot
  {
    var hs := Flatten(e.registry) + e.connects;
    var (live, faults) := ReleaseAll(e.live, hs);
    ReleaseOrder(Flatten(e.registry), e.connects);
    (e.(surfacesLoaded := false, settingsHeld := false, connects := [], registry := [], live := live), faults)
  }

  /** disable with the intended teardown: put the saved entry points back, refresh
      the shell's icons (each destroyed drawing area unregistering itself), then
      destroyObjects. */
  function Disable(e: Ext, rebuilt: seq<nat>): (r: (Ext, nat))
    ensures r.0.initSlot == e.originalInit && r.0.createSlot == e.originalCreate
    ensures r.0.registry == [] && r.0.connects == [] && !r.0.surfacesLoaded && !r.0.settingsHeld
    ensures Good(e) ==> r.1 == 0 && r.0.live == {} && Good(r.0)
  {
    DestroyObjects(Rebuild(e.(initSlot := e.originalInit, createSlot := e.originalCreate), rebuilt))
  }

  /** Once disabled nothing the extension set up reacts any more: no timeout repaints
      and no settings change reaches the flags. */
  lemma DisabledIsInert(e: Ext, rebuilt: seq<nat>, timeout: nat, key: Key, value: bool)
    requires Good(e)
    ensures var d := Disable(e, rebuilt).0;
      Tick(d, timeout) == d && SettingChanged(d, key, value) == d
  {
  }

  /** Where icon `h` is registered, or -1 when it is not. */
  function IconIndex(reg: seq<Triple>, h: nat): (i: int)
    ensures -1 <= i < |reg|
    ensures i >= 0 ==> reg[i].icon == h
    ensures i < 0 ==> forall j :: 0 <= j < |reg| ==> reg[j].icon != h
    decreases |reg|
  {
    if |reg| == 0 then -1
    else if reg[0].icon == h then 0
    else
      var i := IconIndex(reg[1..], h);
      assert forall j :: 1 <= j < |reg| ==> reg[j] == reg[1..][j - 1];
      if i < 0 then -1 else i + 1
  }

  /** The shell destroys a drawing area it shows, as rebuilding an icon does, and the
      extension as written is not told: the area and the repaint connection it held
      are gone, but its triple stays registered and its timeout keeps running. */
  function HostDestroys(e: Ext, h: nat): (r: Ext)
    ensures r == e.(live := r.live) && r.live <= e.live
    ensures IconIndex(e.registry, h) >= 0 ==> h !in r.live
    ensures IconIndex(e.registry, h) < 0 ==> r == e
  {
    var i := IconIndex(e.registry, h);
    if i < 0 then e else e.(live := e.live - {h, e.registry[i].connection})
  }

  /** As written, a registered icon the shell destroys breaks the registry invariant:
      its triple still lists a handle that is no longer alive. */
  lemma HostDestroysBreaksGood(e: Ext, h: nat)
    requires Good(e) && IconIndex(e.registry, h) >= 0
    ensures !Good(HostDestroys(e, h))
  {
    var t := e.registry[IconIndex(e.registry, h)];
    HandlesListed(e.registry, t);
    assert h in Elements(Flatten(HostDestroys(e, h).registry)) && h !in HostDestroys(e, h).live;
  }

  /** The refresh disable runs (redisplayIcons) rebuilds the shell's icons of the two
      applications; `rebuilt` are the drawing areas it destroys. */
  function HostRefresh(e: Ext, rebuilt: seq<nat>): (r: Ext)
    ensures r == e.(live := r.live) && r.live <= e.live
    ensures forall h :: h in rebuilt && IconIndex(e.registry, h) >= 0 ==> h !in r.live
    decreases |rebuilt|
  {
    if |rebuilt| == 0 then e
    else
      var r := HostRefresh(HostDestroys(e, rebuilt[0]), rebuilt[1..]);
      assert forall h :: h in rebuilt ==> h == rebuilt[0] || h in rebuilt[1..];
      r
  }

  /** disable as written: restore the slots, refresh the shell's icons, then
      destroyObjects. */
  function DisableAsWritten(e: Ext, rebuilt: seq<nat>): (r: (Ext, nat))
    ensures r.0.initSlot == e.originalInit && r.0.createSlot == e.originalCreate
    ensures r.0.registry == [] && r.0.connects == []
  {
    DestroyObjects(HostRefresh(e.(initSlot := e.originalInit, createSlot := e.originalCreate), rebuilt))
  }

  /** As written, disable faults as soon as its own refresh destroys one registered
      icon: destroyObjects disconnects and destroys that icon a second time. */
  lemma RefreshThenDestroyFaults(e: Ext, rebuilt: seq<nat>, h: nat)
    requires Good(e)
    requires h in rebuilt && IconIndex(e.registry, h) >= 0
    ensures DisableAsWritten(e, rebuilt).1 > 0
  {
    var e1 := e.(initSlot := e.originalInit, createSlot := e.originalCreate);
    var e2 := HostRefresh(e1, rebuilt);
    var i := IconIndex(e.registry, h);
    FlattenSplit(e.registry, i);
    var hs := Flatten(e.registry);
    assert hs[|Flatten(e.registry[..i])| + 2] == h;
    assert h in Elements(hs);
    ReleaseOrder(hs, e.connects);
    assert h in Elements(hs + e.connects) && h !in e2.live;
  }

  /** The evidently intended teardown: the extension listens for its drawing area's
      destruction and, when the shell destroys a registered icon, removes the icon's
      timeout and drops its triple, so that nothing is released twice later. */
  function IconDestroyed(e: Ext, h: nat): (r: Ext)
    ensures IconIndex(e.registry, h) < 0 ==> r == e
    ensures IconIndex(e.registry, h) >= 0 ==>
      var t := e.registry[IconIndex(e.registry, h)];
      && |r.registry| == |e.registry| - 1
      && t.icon !in r.live && t.timeout !in r.live && t.connection !in r.live
      && (forall j :: 0 <= j < |e.registry| && e.registry[j] != t ==> e.registry[j] in r.registry)
    ensures r.live <= e.live
    ensures r.flags == e.flags && r.connects == e.connects && r.watches == e.watches
    ensures r.initSlot == e.initSlot && r.createSlot == e.createSlot
    ensures r.originalInit == e.originalInit && r.originalCreate == e.originalCreate
    ensures Good(e) ==> Good(r)
  {
    var i := IconIndex(e.registry, h);
    if i < 0 then e
    else
      var t := e.registry[i];
      var r := e.(registry := e.registry[..i] + e.registry[i + 1..],
                  live := e.live - {t.icon, t.timeout, t.connection},
                  icons := e.icons - {t.icon}, timers := e.timers - {t.timeout});
      assert forall j :: 0 <= j < |e.registry| && j != i ==>
        e.registry[j] == r.registry[if j < i then j else j - 1];
      UnregisterGood(e, i);
      r
  }

  lemma UnregisterGood(e: Ext, i: nat)
    requires i < |e.registry|
    ensures var t := e.registry[i];
      Good(e) ==> Good(e.(registry := e.registry[..i] + e.registry[i + 1..],
                          live := e.live - {t.icon, t.timeout, t.connection},
                          icons := e.icons - {t.icon}, timers := e.timers - {t.timeout}))
  {
    if Good(e) {
      var t := e.registry[i];
      var a := Flatten(e.registry[..i]);
      var m := [t.timeout, t.connection, t.icon];
      var b := Flatten(e.registry[i + 1..]);
      FlattenSplit(e.registry, i);
      DropMiddle(a, m, b, e.next);
      assert Elements(m) == {t.icon, t.timeout, t.connection} by {
        assert m[0] == t.timeout && m[1] == t.connection && m[2] == t.icon;
      }
      var reg := e.registry[..i] + e.registry[i + 1..];
      forall u | u in reg
        ensures u.timeout != t.timeout && u.icon != t.icon
      {
        HandlesListed(reg, u);
      }
    }
  }

  /** The refresh under the intended teardown: each destroyed drawing area runs its
      destroy handler. */
  function Rebuild(e: Ext, rebuilt: seq<nat>): (r: Ext)
    ensures r.flags == e.flags && r.connects == e.connects && r.watches == e.watches
    ensures r.initSlot == e.initSlot && r.createSlot == e.createSlot
    ensures r.originalInit == e.originalInit && r.originalCreate == e.originalCreate
    ensures r.live <= e.live
    ensures Good(e) ==> Good(r)
    decreases |rebuilt|
  {
    if |rebuilt| == 0 then e else Rebuild(IconDestroyed(e, rebuilt[0]), rebuilt[1..])
  }

  /** What the shell does while the extension is enabled. */
  datatype Event =
    | AppIcon(appId: string, iconSize: int, scaleFactor: nat)
    | SearchProvider(providerId: string, content: seq<Widget>, iconSize: int, scaleFactor: nat)
    | SettingWritten(key: Key, value: bool)
    | TimeoutFires(timeout: nat)
    | ShellDestroys(icon: nat)

  /** One event: none touches the slots, the saved originals or the settings
      connections, and each keeps the registry invariant. A drawing area the shell
      destroys runs the intended destroy handler (`IconDestroyed`); the code as
      written has none, and there the event breaks the invariant
      (`HostDestroysBreaksGood`). */
  function Handle(e: Ext, ev: Event): (r: Ext)
    ensures r.initSlot == e.initSlot && r.createSlot == e.createSlot
    ensures r.originalInit == e.originalInit && r.originalCreate == e.originalCreate
    ensures r.connects == e.connects
    ensures Good(e) ==> Good(r)
  {
    match ev
    case AppIcon(appId, size, factor) => CreateIconTexture(e, appId, size, factor).0
    case SearchProvider(id, content, size, factor) => InitProviderInfo(e, id, content, size, factor).0
    case SettingWritten(key, value) => SettingChanged(e, key, value)
    case TimeoutFires(timeout) => Tick(e, timeout)
    case ShellDestroys(icon) => IconDestroyed(e, icon)
  }

  /** Run a sequence of events, one after the other. */
  function Replay(e: Ext, events: seq<Event>): (r: Ext)
    ensures r.initSlot == e.initSlot && r.createSlot == e.createSlot
    ensures r.originalInit == e.originalInit && r.originalCreate == e.originalCreate
    ensures r.connects == e.connects
    ensures Good(e) ==> Good(r)
    decreases |events|
  {
    if |events| == 0 then e else Replay(Handle(e, events[0]), events[1..])
  }

  /** The whole lifecycle: enable, any number of icons, timeouts, settings changes and
      icons the shell destroys, then disable and its refresh, leaves the prototype
      slots as they were before enable and releases every timeout, connection and icon
      exactly once. */
  lemma Lifecycle(e: Ext, stored: Flags, events: seq<Event>, rebuilt: seq<nat>)
    requires Good(e)
    ensures var (d, faults) := Disable(Replay(Enable(e, stored), events), rebuilt);
      && d.initSlot == e.initSlot && d.createSlot == e.createSlot
      && faults == 0 && d.live == {} && d.registry == [] && d.connects == []
  {
  }
}
