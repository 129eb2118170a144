/** The preferences window's coupling of the two weather switches: whenever the
    background is switched off the temperature is switched off with it, and whenever
    the temperature is switched on the background is switched on with it, so that
    the temperature is never shown without its background.

    Every write of a key, the user's or a handler's, runs that key's `changed`
    handler once, and a handler's own write runs the other handler in turn. */
module Prefs {

  datatype Option<T> = None | Some(value: T)

  datatype Key = ShowBackground | ShowTemperature

  datatype Prefs = Prefs(background: bool, temperature: bool)

  /** A write a handler makes. */
  datatype Write = Write(key: Key, value: bool)

  function Get(p: Prefs, k: Key): bool {
    match k
    case ShowBackground => p.background
    case ShowTemperature => p.temperature
  }

  function Set(p: Prefs, k: Key, v: bool): (r: Prefs)
    ensures Get(r, k) == v
    ensures forall k' :: k' != k ==> Get(r, k') == Get(p, k')
  {
    match k
    case ShowBackground => p.(background := v)
    case ShowTemperature => p.(temperature := v)
  }

  function Other(k: Key): Key {
    match k
    case ShowBackground => ShowTemperature
    case ShowTemperature => ShowBackground
  }

  /** The temperature is shown only over the background. */
  predicate Coupled(p: Prefs) {
    p.temperature ==> p.background
  }

  /** The `changed::<k>` handler, reading the settings as they are now: it writes
      the other key exactly when its own key was just turned the way that may
      uncouple the state, and what it writes couples the state. */
  function Handler(p: Prefs, k: Key): (w: Option<Write>)
    ensures w.Some? <==>
      (k == ShowBackground && !p.background) || (k == ShowTemperature && p.temperature)
    ensures w.Some? ==> w.value.key == Other(k)
    ensures w.Some? ==> Coupled(Set(p, w.value.key, w.value.value))
  {
    match k
    case ShowBackground => if !p.background then Some(Write(ShowTemperature, false)) else None
    case ShowTemperature => if p.temperature then Some(Write(ShowBackground, true)) else None
  }

  /** A handler's write leaves the handler it triggers nothing to do, so the cascade
      stops after one forced write. */
  lemma CascadeStops(p: Prefs, k: Key)
    requires Handler(p, k).Some?
    ensures var w := Handler(p, k).value;
      Handler(Set(p, w.key, w.value), w.key).None?
  {
  }

  /** The user sets `k` to `v`: the write, then the handler cascade it starts, each
      write running the handler of the key written. Returns the settled state and
      how many writes the handlers made. */
  method Toggle(p: Prefs, k: Key, v: bool) returns (r: Prefs, forced: nat)
    ensures forced <= 1
    ensures Get(r, k) == v
    ensures Coupled(r)
    ensures forced == 1 <==> (k == ShowBackground && !v) || (k == ShowTemperature && v)
    ensures forced == 0 ==> r == Set(p, k, v)
    ensures k == ShowBackground && !v ==> !r.temperature
    ensures k == ShowTemperature && v ==> r.background
    ensures r == Settled(p, k, v)
  {
    r := Set(p, k, v);
    forced := 0;
    var pending: Option<Key> := Some(k);
    while pending.Some?
      invariant forced <= 1
      invariant Get(r, k) == v
      invariant forced == 0 ==> r == Set(p, k, v) && (pending.Some? ==> pending.value == k)
      invariant forced == 1 ==> pending.None? || Handler(r, pending.value).None?
      invariant forced == 1 ==> pending.None? || pending.value == Other(k)
      invariant forced == 1 ==> Coupled(r) && ((k == ShowBackground && !v) || (k == ShowTemperature && v))
      invariant forced == 1 ==> r == Settled(p, k, v)
      invariant forced == 0 && pending.None? ==> Handler(r, k).None?
      decreases (if pending.Some? then 1 else 0) + (1 - forced)
    {
      match Handler(r, pending.value)
      case None =>
        pending := None;
      case Some(w) =>
        CascadeStops(r, pending.value);
        r := Set(r, w.key, w.value);
        forced := forced + 1;
        pending := Some(w.key);
    }
    if forced == 0 {
      assert Handler(Set(p, k, v), k).None?;
    }
  }

  /** Where one user write settles, as a table: switching the background off also
      switches the temperature off, switching the temperature on also switches the
      background on, and the two other writes touch nothing else. */
  function Settled(p: Prefs, k: Key, v: bool): Prefs {
    match k
    case ShowBackground => if v then p.(background := true) else Prefs(false, false)
    case ShowTemperature => if v then Prefs(true, true) else p.(temperature := false)
  }

  /** The settled state is coupled whatever the state before, and repeating the same
      write changes nothing more. */
  lemma SettledCoupledAndIdempotent(p: Prefs, k: Key, v: bool)
    ensures Coupled(Settled(p, k, v))
    ensures Settled(Settled(p, k, v), k, v) == Settled(p, k, v)
    ensures Get(Settled(p, k, v), k) == v
  {
  }

  /** From a coupled state, the writes that cannot break the coupling (background on,
      temperature off) and the writes that already agree with it change only their
      own key. */
  lemma SettledChangesOnlyWhatItMust(p: Prefs, k: Key, v: bool)
    requires Coupled(p)
    requires Coupled(Set(p, k, v))
    ensures Settled(p, k, v) == Set(p, k, v)
  {
  }
}
