/**
 * The lifecycle of a CameraDevice as a history of the calls that reached
 * the flag `isReady_`: an Open that succeeded, an Open that failed and rolled
 * back, and a Close that tore a ready device down. An Open rejected because
 * the device is already ready, a Close of a device that is not ready and
 * every Capture leave the flag alone and are not recorded.
 */
module Lifecycle {

  datatype Event = Opened | OpenFailed | Closed

  /** The flag after one recorded call. */
  function Next(ready: bool, e: Event): bool {
    match e
    case Opened => true
    case OpenFailed => ready
    case Closed => false
  }

  /** The flag after a history of calls, starting from the constructor's `false`. */
  function Ready(h: seq<Event>): bool
    decreases |h|
  {
    if h == [] then false else Next(Ready(h[..|h| - 1]), h[|h| - 1])
  }

  /** Open is attempted only when not ready; Close tears down only when ready. */
  predicate Allowed(ready: bool, e: Event) {
    match e
    case Opened => !ready
    case OpenFailed => !ready
    case Closed => ready
  }

  predicate Legal(h: seq<Event>)
    decreases |h|
  {
    h == [] || (Legal(h[..|h| - 1]) && Allowed(Ready(h[..|h| - 1]), h[|h| - 1]))
  }

  function Count(h: seq<Event>, e: Event): nat
    decreases |h|
  {
    if h == [] then 0 else Count(h[..|h| - 1], e) + (if h[|h| - 1] == e then 1 else 0)
  }

  /** Appending one call to a history. */
  lemma Extend(h: seq<Event>, e: Event)
    ensures Ready(h + [e]) == Next(Ready(h), e)
    ensures Legal(h + [e]) <==> Legal(h) && Allowed(Ready(h), e)
    ensures forall k :: Count(h + [e], k) == Count(h, k) + (if e == k then 1 else 0)
  {
    assert (h + [e])[..|h|] == h;
  }

  /** `ready` is the flag that the legal history `h` leads to. */
  predicate Tracks(h: seq<Event>, ready: bool) {
    Legal(h) && ready == Ready(h)
  }

  /** Recording an allowed call keeps the flag in step with the history. */
  lemma Record(h: seq<Event>, ready: bool, e: Event)
    requires Tracks(h, ready) && Allowed(ready, e)
    ensures Tracks(h + [e], Next(ready, e))
  {
    Extend(h, e);
  }

  /** Some Open succeeded and no Close has come after it. */
  ghost predicate OpenNotClosed(h: seq<Event>) {
    exists i :: 0 <= i < |h| && h[i] == Opened && forall j :: i < j < |h| ==> h[j] != Closed
  }

  /**
   * The device is ready exactly when the most recent successful Open has
   * not yet been followed by a Close.
   */
  lemma {:induction false} ReadyIffOpenNotClosed(h: seq<Event>)
    ensures Ready(h) <==> OpenNotClosed(h)
    decreases |h|
  {
    if h != [] {
      var p, e := h[..|h| - 1], h[|h| - 1];
      assert h == p + [e];
      ReadyIffOpenNotClosed(p);
      match e
      case Opened =>
        assert h[|h| - 1] == Opened;
      case Closed =>
        assert h[|h| - 1] == Closed;
      case OpenFailed =>
        if OpenNotClosed(p) {
          var i :| 0 <= i < |p| && p[i] == Opened && forall j :: i < j < |p| ==> p[j] != Closed;
          assert forall j :: i < j < |h| ==> h[j] != Closed;
        }
        if OpenNotClosed(h) {
          var i :| 0 <= i < |h| && h[i] == Opened && forall j :: i < j < |h| ==> h[j] != Closed;
          assert i < |p| && p[i] == Opened;
          assert forall j :: i < j < |p| ==> p[j] != Closed;
        }
    }
  }

  /**
   * In a legal history every successful Open but the current one has been
   * matched by a Close: at most one Open-to-Close cycle is active.
   */
  lemma {:induction false} LegalBalance(h: seq<Event>)
    requires Legal(h)
    ensures Count(h, Opened) == Count(h, Closed) + (if Ready(h) then 1 else 0)
    decreases |h|
  {
    if h != [] {
      var p, e := h[..|h| - 1], h[|h| - 1];
      assert h == p + [e];
      LegalBalance(p);
      Extend(p, e);
    }
  }
}
