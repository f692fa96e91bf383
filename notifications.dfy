/**
 * The notification store: an ordered list of messages shown to the user.
 * Each `add` appends an entry whose id is the current clock reading and,
 * unless its timeout is 0, schedules a timer that later drops every entry
 * carrying that id. The clock is an argument and a timer firing is an
 * explicit event, `Expire`.
 */
module Notifications {
  import opened Wrappers

  datatype Kind = Info | Success | Error

  datatype Notification = Notification(id: int, message: string, kind: Kind)

  /** A pending `setTimeout`: the id it will remove and the earliest time it fires. */
  datatype Timer = Timer(id: int, due: int)

  const DefaultTimeout := 30000

  /**
   * The delay `setTimeout` waits for a numeric timeout: the number is
   * converted to a signed 32-bit integer (wrapping modulo 2^32), and a
   * negative result waits 0.
   */
  function Delay(timeout: int): (d: int)
    ensures 0 <= d < 0x8000_0000
    ensures 0 <= timeout < 0x8000_0000 ==> d == timeout
    ensures timeout % 0x1_0000_0000 < 0x8000_0000 ==> d == timeout % 0x1_0000_0000
    ensures timeout % 0x1_0000_0000 >= 0x8000_0000 ==> d == 0
  {
    var wrapped := (timeout + 0x8000_0000) % 0x1_0000_0000 - 0x8000_0000;
    if wrapped < 0 then 0 else wrapped
  }

  /** A truthy timeout of 2^32 converts to a delay of 0, so its timer fires at once. */
  lemma WrappedTimeoutFiresAtOnce()
    ensures Delay(0x1_0000_0000) == 0
    ensures Delay(0x8000_0000) == 0
  {
  }

  /** The list with every entry carrying `id` filtered out, the others in their order. */
  function Without(list: seq<Notification>, id: int): (r: seq<Notification>)
    ensures forall n :: n in r <==> n in list && n.id != id
    ensures |r| <= |list|
    decreases |list|
  {
    if list == [] then []
    else (if list[0].id == id then [] else [list[0]]) + Without(list[1..], id)
  }

  /** Filtering distributes over concatenation: the entries that stay keep their relative order. */
  lemma {:induction false} WithoutAppend(a: seq<Notification>, b: seq<Notification>, id: int)
    ensures Without(a + b, id) == Without(a, id) + Without(b, id)
    decreases |a|
  {
    if a != [] {
      assert (a + b)[0] == a[0] && (a + b)[1..] == a[1..] + b;
      WithoutAppend(a[1..], b, id);
      var head := if a[0].id == id then [] else [a[0]];
      assert Without(a + b, id) == head + (Without(a[1..], id) + Without(b, id));
      assert Without(a, id) == head + Without(a[1..], id);
    } else {
      assert a + b == b;
    }
  }

  /** Removing an id that no entry carries changes nothing. */
  lemma {:induction false} WithoutAbsent(list: seq<Notification>, id: int)
    requires forall n :: n in list ==> n.id != id
    ensures Without(list, id) == list
    decreases |list|
  {
    if list != [] {
      assert list[0] in list;
      forall n | n in list[1..] ensures n.id != id {
        assert n in list;
      }
      WithoutAbsent(list[1..], id);
    }
  }

  /** A second removal of the same id (a timer firing after a manual `remove`) changes nothing. */
  lemma WithoutTwice(list: seq<Notification>, id: int)
    ensures Without(Without(list, id), id) == Without(list, id)
  {
    WithoutAbsent(Without(list, id), id);
  }

  /** Two entries added in the same clock tick share an id: removing that id drops both. */
  lemma SameTickShareFate(list: seq<Notification>, first: Notification, second: Notification)
    requires first.id == second.id
    ensures Without(list + [first, second], first.id) == Without(list, first.id)
  {
    WithoutAppend(list, [first, second], first.id);
    assert [first, second][1..] == [second];
  }

  class NotificationStore {
    var items: seq<Notification>
    var timers: seq<Timer>

    constructor ()
      ensures items == [] && timers == []
    {
      items := [];
      timers := [];
    }

    /**
     * `add(message, kind = 'info', timeout = 30000)` at clock reading `now`;
     * an omitted argument is None. A non-zero timeout schedules a timer
     * after the delay `setTimeout` makes of it.
     */
    method Add(message: string, kind: Option<Kind>, timeout: Option<int>, now: int)
      modifies this
      ensures items == old(items) + [Notification(now, message, kind.GetOr(Info))]
      ensures timers == old(timers) + if timeout.GetOr(DefaultTimeout) != 0
                                      then [Timer(now, now + Delay(timeout.GetOr(DefaultTimeout)))] else []
    {
      var id := now;
      var delay := timeout.GetOr(DefaultTimeout);
      items := items + [Notification(id, message, kind.GetOr(Info))];
      if delay != 0 {
        timers := timers + [Timer(id, now + Delay(delay))];
      }
    }

    /** `remove(id)`: drops every entry with that id. */
    method Remove(id: int)
      modifies this
      ensures items == Without(old(items), id)
      ensures timers == old(timers)
    {
      items := Without(items, id);
    }

    /** Timer number `t` fires at clock reading `now`: it drops every entry with its id and is gone. */
    method Expire(t: nat, now: int)
      requires t < |timers| && timers[t].due <= now
      modifies this
      ensures items == Without(old(items), old(timers[t].id))
      ensures timers == old(timers[..t] + timers[t + 1..])
    {
      items := Without(items, timers[t].id);
      timers := timers[..t] + timers[t + 1..];
    }
  }

  /**
   * `add(message, 'info', 100)`, a manual `remove` of its id, then its
   * timer firing 150 time units later: the list ends empty and the late
   * timer finds nothing left to drop.
   */
  method RemoveBeforeExpiry(message: string, now: int) returns (after: seq<Notification>)
    ensures after == []
  {
    var store := new NotificationStore();
    store.Add(message, Some(Info), Some(100), now);
    store.Remove(now);
    var removed := store.items;
    store.Expire(0, now + 150);
    WithoutTwice([Notification(now, message, Info)], now);
    assert store.items == removed;
    after := store.items;
  }
}
