/** The reactor of src/network/event_dispatch.cpp: a list of timers keyed by
    (callback, user data), a list of loop callbacks run once per iteration, the
    `running` guard of StartDispatch, and the interest sets of the select back end.
    Callbacks and user data are identified by numbers; the current tick is a
    parameter. */
module EventDispatch {

  /** One timer: its key, its period and the tick at which it is next due. */
  datatype TimerItem = TimerItem(callback: nat, userData: nat, interval: nat, nextTick: nat)

  /** One loop callback. */
  datatype LoopItem = LoopItem(callback: nat, userData: nat)

  /** Readiness bits of AddEvent / RemoveEvent. */
  const SOCKET_READ: bv8 := 1
  const SOCKET_WRITE: bv8 := 2
  const SOCKET_EXCEP: bv8 := 4

  function Key(t: TimerItem): (nat, nat)
  {
    (t.callback, t.userData)
  }

  /** At most one timer per (callback, user data). */
  predicate KeysUnique(timers: seq<TimerItem>)
  {
    forall i, j :: 0 <= i < j < |timers| ==> Key(timers[i]) != Key(timers[j])
  }

  /** Position of the first timer with the given key. */
  function IndexOf(timers: seq<TimerItem>, key: (nat, nat)): (r: Position)
    ensures r.Found? ==> r.index < |timers| && Key(timers[r.index]) == key
    ensures r.Found? ==> forall j :: 0 <= j < r.index ==> Key(timers[j]) != key
    ensures r.NotFound? ==> forall j :: 0 <= j < |timers| ==> Key(timers[j]) != key
  {
    if timers == [] then NotFound
    else if Key(timers[0]) == key then Found(0)
    else match IndexOf(timers[1..], key)
      case NotFound => NotFound
      case Found(i) => Found(i + 1)
  }

  datatype Position = NotFound | Found(index: nat)

  /** AddTimer: an existing timer with the key gets the new period and is next due one
      period from now; otherwise a new timer is appended. */
  function Upsert(timers: seq<TimerItem>, callback: nat, userData: nat, interval: nat, now: nat)
    : seq<TimerItem>
  {
    match IndexOf(timers, (callback, userData))
    case Found(i) => timers[i := timers[i].(interval := interval, nextTick := now + interval)]
    case NotFound => timers + [TimerItem(callback, userData, interval, now + interval)]
  }

  /** RemoveTimer: the first timer with the key is dropped. */
  function Remove(timers: seq<TimerItem>, key: (nat, nat)): seq<TimerItem>
  {
    match IndexOf(timers, key)
    case Found(i) => timers[..i] + timers[i + 1..]
    case NotFound => timers
  }

  /** Independent reference: every timer without the key, in order. */
  function Without(timers: seq<TimerItem>, key: (nat, nat)): (r: seq<TimerItem>)
    ensures |r| <= |timers|
    ensures forall t :: t in r ==> t in timers && Key(t) != key
  {
    if timers == [] then []
    else if Key(timers[0]) == key then Without(timers[1..], key)
    else [timers[0]] + Without(timers[1..], key)
  }

  /** Whether a timer fires at tick `now`. */
  predicate Due(t: TimerItem, now: nat)
  {
    now >= t.nextTick
  }

  /** The timer list after _CheckTimer at tick `now`: every due timer is next due one
      period later, the others are untouched. */
  function Advanced(timers: seq<TimerItem>, now: nat): (r: seq<TimerItem>)
    ensures |r| == |timers|
    ensures forall i :: 0 <= i < |timers| ==>
              r[i] == (if Due(timers[i], now) then timers[i].(nextTick := timers[i].nextTick + timers[i].interval)
                       else timers[i])
  {
    if timers == [] then []
    else
      [if Due(timers[0], now) then timers[0].(nextTick := timers[0].nextTick + timers[0].interval)
       else timers[0]] + Advanced(timers[1..], now)
  }

  /** The callbacks _CheckTimer calls at tick `now`, in list order. */
  function Fired(timers: seq<TimerItem>, now: nat): (r: seq<LoopItem>)
    ensures |r| <= |timers|
    ensures forall f :: f in r <==> exists i :: 0 <= i < |timers| && Due(timers[i], now) &&
                                             f == LoopItem(timers[i].callback, timers[i].userData)
  {
    if timers == [] then []
    else
      (if Due(timers[0], now) then [LoopItem(timers[0].callback, timers[0].userData)] else [])
      + Fired(timers[1..], now)
  }

  /** AddTimer keeps one timer per key; afterwards the key's timer is found with the
      new period and due one period from now, and the list grew only if the key was
      new. */
  lemma UpsertKeepsUnique(timers: seq<TimerItem>, callback: nat, userData: nat, interval: nat, now: nat)
    requires KeysUnique(timers)
    ensures var r := Upsert(timers, callback, userData, interval, now);
      KeysUnique(r) &&
      |r| == |timers| + (if IndexOf(timers, (callback, userData)).Found? then 0 else 1) &&
      IndexOf(r, (callback, userData)).Found? &&
      r[IndexOf(r, (callback, userData)).index] ==
        TimerItem(callback, userData, interval, now + interval)
  {
    var key := (callback, userData);
    var r := Upsert(timers, callback, userData, interval, now);
    match IndexOf(timers, key)
    case Found(i) =>
      assert Key(r[i]) == key;
      assert forall j :: 0 <= j < |r| && j != i ==> r[j] == timers[j];
    case NotFound =>
      assert r[|timers|] == TimerItem(callback, userData, interval, now + interval);
      assert forall j :: 0 <= j < |timers| ==> r[j] == timers[j];
  }

  /** RemoveTimer on a list with unique keys: exactly the timers without the key
      remain, in their order. */
  lemma {:induction false} RemoveIsWithout(timers: seq<TimerItem>, key: (nat, nat))
    requires KeysUnique(timers)
    ensures Remove(timers, key) == Without(timers, key)
    decreases |timers|
  {
    if timers != [] {
      KeysUniqueTail(timers);
      RemoveIsWithout(timers[1..], key);
      if Key(timers[0]) == key {
        HeadKeyNotInTail(timers);
        WithoutAbsent(timers[1..], key);
      } else {
        RemoveSkipsHead(timers, key);
      }
    }
  }

  /** The tail of a list with unique keys has unique keys. */
  lemma KeysUniqueTail(timers: seq<TimerItem>)
    requires timers != [] && KeysUnique(timers)
    ensures KeysUnique(timers[1..])
  {
    forall i, j | 0 <= i < j < |timers[1..]| ensures Key(timers[1..][i]) != Key(timers[1..][j]) {
      assert timers[1..][i] == timers[i + 1] && timers[1..][j] == timers[j + 1];
    }
  }

  /** With unique keys, the first timer's key does not occur again. */
  lemma HeadKeyNotInTail(timers: seq<TimerItem>)
    requires timers != [] && KeysUnique(timers)
    ensures forall j :: 0 <= j < |timers[1..]| ==> Key(timers[1..][j]) != Key(timers[0])
  {
    forall j | 0 <= j < |timers[1..]| ensures Key(timers[1..][j]) != Key(timers[0]) {
      assert timers[1..][j] == timers[j + 1];
    }
  }

  /** Removing a key the first timer does not have keeps that timer at the head. */
  lemma RemoveSkipsHead(timers: seq<TimerItem>, key: (nat, nat))
    requires timers != [] && Key(timers[0]) != key
    ensures Remove(timers, key) == [timers[0]] + Remove(timers[1..], key)
  {
    match IndexOf(timers[1..], key)
    case NotFound =>
    case Found(i) =>
      assert IndexOf(timers, key) == Found(i + 1);
      assert timers[..i + 1] + timers[i + 2..] == [timers[0]] + (timers[1..][..i] + timers[1..][i + 1..]);
  }

  /** Filtering out a key that does not occur changes nothing. */
  lemma {:induction false} WithoutAbsent(timers: seq<TimerItem>, key: (nat, nat))
    requires forall j :: 0 <= j < |timers| ==> Key(timers[j]) != key
    ensures Without(timers, key) == timers
    decreases |timers|
  {
    if timers != [] {
      WithoutAbsent(timers[1..], key);
    }
  }

  /** _CheckTimer keeps every key and the order of the list. */
  lemma AdvancedKeepsKeys(timers: seq<TimerItem>, now: nat)
    ensures forall i :: 0 <= i < |timers| ==> Key(Advanced(timers, now)[i]) == Key(timers[i])
    ensures KeysUnique(timers) ==> KeysUnique(Advanced(timers, now))
  {
  }

  class CEventDispatch {
    var timerList: seq<TimerItem>
    var loopList: seq<LoopItem>
    var running: bool
    /** The select back end's fd sets. */
    var readSet: set<int>
    var writeSet: set<int>
    var excepSet: set<int>

    predicate Valid()
      reads this
    {
      KeysUnique(timerList)
    }

    constructor()
      ensures Valid()
      ensures timerList == [] && loopList == [] && !running
      ensures readSet == {} && writeSet == {} && excepSet == {}
    {
      timerList := [];
      loopList := [];
      running := false;
      readSet, writeSet, excepSet := {}, {}, {};
    }

    method AddTimer(callback: nat, userData: nat, interval: nat, now: nat)
      requires Valid()
      modifies this`timerList
      ensures Valid()
      ensures timerList == Upsert(old(timerList), callback, userData, interval, now)
    {
      UpsertKeepsUnique(timerList, callback, userData, interval, now);
      var i := 0;
      while i < |timerList|
        invariant 0 <= i <= |timerList|
        invariant forall j :: 0 <= j < i ==> Key(timerList[j]) != (callback, userData)
      {
        if timerList[i].callback == callback && timerList[i].userData == userData {
          timerList := timerList[i := timerList[i].(interval := interval, nextTick := now + interval)];
          return;
        }
        i := i + 1;
      }
      timerList := timerList + [TimerItem(callback, userData, interval, now + interval)];
    }

    method RemoveTimer(callback: nat, userData: nat)
      requires Valid()
      modifies this`timerList
      ensures Valid()
      ensures timerList == Remove(old(timerList), (callback, userData))
      ensures timerList == Without(old(timerList), (callback, userData))
    {
      RemoveIsWithout(timerList, (callback, userData));
      assert KeysUnique(Without(timerList, (callback, userData))) by {
        WithoutKeepsUnique(timerList, (callback, userData));
      }
      var i := 0;
      while i < |timerList|
        invariant 0 <= i <= |timerList|
        invariant forall j :: 0 <= j < i ==> Key(timerList[j]) != (callback, userData)
      {
        if timerList[i].callback == callback && timerList[i].userData == userData {
          timerList := timerList[..i] + timerList[i + 1..];
          return;
        }
        i := i + 1;
      }
    }

    /** One pass over the timer list at tick `now`; returns the callbacks called. */
    method CheckTimer(now: nat) returns (fired: seq<LoopItem>)
      requires Valid()
      modifies this`timerList
      ensures Valid()
      ensures timerList == Advanced(old(timerList), now)
      ensures fired == Fired(old(timerList), now)
    {
      AdvancedKeepsKeys(timerList, now);
      ghost var original := timerList;
      ghost var target := Advanced(original, now);
      fired := [];
      var i := 0;
      while i < |timerList|
        invariant 0 <= i <= |timerList| == |original|
        invariant forall j :: 0 <= j < i ==> timerList[j] == target[j]
        invariant forall j :: i <= j < |original| ==> timerList[j] == original[j]
        invariant fired + Fired(original[i..], now) == Fired(original, now)
      {
        var item := timerList[i];
        assert original[i..][1..] == original[i + 1..];
        if now >= item.nextTick {
          timerList := timerList[i := item.(nextTick := item.nextTick + item.interval)];
          fired := fired + [LoopItem(item.callback, item.userData)];
        }
        i := i + 1;
      }
      assert timerList == target;
    }

    method AddLoop(callback: nat, userData: nat)
      modifies this`loopList
      ensures loopList == old(loopList) + [LoopItem(callback, userData)]
    {
      loopList := loopList + [LoopItem(callback, userData)];
    }

    /** One pass over the loop list; returns the callbacks called, in order. */
    method CheckLoop() returns (fired: seq<LoopItem>)
      ensures fired == loopList
    {
      fired := [];
      var i := 0;
      while i < |loopList|
        invariant 0 <= i <= |loopList|
        invariant fired == loopList[..i]
      {
        fired := fired + [loopList[i]];
        i := i + 1;
      }
    }

    /** The guard of StartDispatch: a dispatcher already running returns at once. */
    method StartDispatch() returns (entered: bool)
      modifies this`running
      ensures entered == !old(running)
      ensures running
    {
      if running {
        return false;
      }
      running := true;
      return true;
    }

    /** The timer and loop passes each iteration of the dispatch loop ends with. */
    method DispatchIteration(now: nat) returns (timers: seq<LoopItem>, loops: seq<LoopItem>)
      requires Valid()
      modifies this`timerList
      ensures Valid()
      ensures timerList == Advanced(old(timerList), now) && loopList == old(loopList)
      ensures timers == Fired(old(timerList), now) && loops == loopList
    {
      timers := CheckTimer(now);
      loops := CheckLoop();
    }

    method StopDispatch()
      modifies this`running
      ensures !running
    {
      running := false;
    }

    /** The select back end's AddEvent: the fd joins exactly the sets whose bit is set. */
    method AddEvent(fd: int, socketEvent: bv8)
      modifies this`readSet, this`writeSet, this`excepSet
      ensures readSet == if socketEvent & SOCKET_READ != 0 then old(readSet) + {fd} else old(readSet)
      ensures writeSet == if socketEvent & SOCKET_WRITE != 0 then old(writeSet) + {fd} else old(writeSet)
      ensures excepSet == if socketEvent & SOCKET_EXCEP != 0 then old(excepSet) + {fd} else old(excepSet)
    {
      if socketEvent & SOCKET_READ != 0 {
        readSet := readSet + {fd};
      }
      if socketEvent & SOCKET_WRITE != 0 {
        writeSet := writeSet + {fd};
      }
      if socketEvent & SOCKET_EXCEP != 0 {
        excepSet := excepSet + {fd};
      }
    }

    /** The select back end's RemoveEvent: the fd leaves exactly the sets whose bit is set. */
    method RemoveEvent(fd: int, socketEvent: bv8)
      modifies this`readSet, this`writeSet, this`excepSet
      ensures readSet == if socketEvent & SOCKET_READ != 0 then old(readSet) - {fd} else old(readSet)
      ensures writeSet == if socketEvent & SOCKET_WRITE != 0 then old(writeSet) - {fd} else old(writeSet)
      ensures excepSet == if socketEvent & SOCKET_EXCEP != 0 then old(excepSet) - {fd} else old(excepSet)
    {
      if socketEvent & SOCKET_READ != 0 {
        readSet := readSet - {fd};
      }
      if socketEvent & SOCKET_WRITE != 0 {
        writeSet := writeSet - {fd};
      }
      if socketEvent & SOCKET_EXCEP != 0 {
        excepSet := excepSet - {fd};
      }
    }
  }

  /** Filtering keeps keys unique. */
  lemma {:induction false} WithoutKeepsUnique(timers: seq<TimerItem>, key: (nat, nat))
    requires KeysUnique(timers)
    ensures KeysUnique(Without(timers, key))
    decreases |timers|
  {
    if timers != [] {
      assert KeysUnique(timers[1..]) by {
        forall i, j | 0 <= i < j < |timers[1..]| ensures Key(timers[1..][i]) != Key(timers[1..][j]) {
          assert timers[1..][i] == timers[i + 1] && timers[1..][j] == timers[j + 1];
        }
      }
      WithoutKeepsUnique(timers[1..], key);
      var rest := Without(timers[1..], key);
      if Key(timers[0]) != key {
        forall t | t in rest ensures Key(t) != Key(timers[0]) {
          var j :| 0 <= j < |timers[1..]| && timers[1..][j] == t;
          assert timers[1..][j] == timers[j + 1];
        }
        var r := [timers[0]] + rest;
        forall i, j | 0 <= i < j < |r| ensures Key(r[i]) != Key(r[j]) {
          if i == 0 {
            assert r[j] in rest;
          } else {
            assert r[i] == rest[i - 1] && r[j] == rest[j - 1];
          }
        }
      }
    }
  }
}
