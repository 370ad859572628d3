/** The acknowledgement window of section 5.4.3 of the RTMP specification as
    RtmpConn::rtmp_server_send_acknowledgement keeps it: the first counter grows by the
    size of every chunk-layer input, and once it has grown past the last acknowledged
    value by more than the window size an Acknowledgement carrying the first counter is
    sent and the second counter catches up. */
module AckSpec {
  import opened Wrappers
  import opened RtmpConnDefs

  /** recv_bytes[0] (bytes received) and recv_bytes[1] (bytes last acknowledged). */
  datatype Counters = Counters(received: nat, acked: nat)

  /** An acknowledgement is due after n more bytes under the given window size;
      a window of 0 switches acknowledgements off. */
  predicate AckDue(c: Counters, window: nat, n: nat)
  {
    window != 0 && c.received + n - c.acked > window
  }

  /** The counters after an input of n bytes. */
  function AckStep(c: Counters, window: nat, n: nat): (c': Counters)
    ensures c'.received == c.received + n
    ensures c'.acked == (if AckDue(c, window, n) then c'.received else c.acked)
  {
    var received := c.received + n;
    Counters(received, if AckDue(c, window, n) then received else c.acked)
  }

  /** Sequence numbers of the acknowledgements sent over a run of inputs. */
  function AcksOf(c: Counters, window: nat, sizes: seq<nat>): seq<nat>
    decreases |sizes|
  {
    if sizes == [] then []
    else
      (if AckDue(c, window, sizes[0]) then [c.received + sizes[0]] else [])
      + AcksOf(AckStep(c, window, sizes[0]), window, sizes[1..])
  }

  /** The counters after a run of inputs. */
  function CountersAfter(c: Counters, window: nat, sizes: seq<nat>): Counters
    decreases |sizes|
  {
    if sizes == [] then c else CountersAfter(AckStep(c, window, sizes[0]), window, sizes[1..])
  }

  /** What the counters promise between inputs: nothing acknowledged that was not
      received, and (with a window) no more than a window of unacknowledged bytes. */
  predicate Bounded(c: Counters, window: nat)
  {
    c.acked <= c.received && (window != 0 ==> c.received - c.acked <= window)
  }

  /** The received counter is the total of all inputs, and the unacknowledged backlog
      never exceeds the window. */
  lemma {:induction false} BacklogBounded(c: Counters, window: nat, sizes: seq<nat>)
    requires Bounded(c, window)
    ensures CountersAfter(c, window, sizes).received == c.received + Sum(sizes)
    ensures Bounded(CountersAfter(c, window, sizes), window)
    decreases |sizes|
  {
    if sizes != [] {
      BacklogBounded(AckStep(c, window, sizes[0]), window, sizes[1..]);
    }
  }

  /** Every acknowledgement reports a byte count received so far, the counts strictly
      increase by more than the window from one acknowledgement to the next, and the
      first one lies more than a window beyond the last acknowledged count. */
  lemma {:induction false} AcksSpacedByWindow(c: Counters, window: nat, sizes: seq<nat>)
    requires c.acked <= c.received
    ensures var a := AcksOf(c, window, sizes);
      (forall i :: 0 <= i < |a| ==> c.received <= a[i] <= c.received + Sum(sizes)) &&
      (|a| > 0 ==> a[0] > c.acked + window) &&
      (forall i :: 0 <= i < |a| - 1 ==> a[i + 1] > a[i] + window)
    decreases |sizes|
  {
    if sizes != [] {
      var n := sizes[0];
      var c' := AckStep(c, window, n);
      AcksSpacedByWindow(c', window, sizes[1..]);
      var tail := AcksOf(c', window, sizes[1..]);
      assert Sum(sizes) == n + Sum(sizes[1..]);
      if AckDue(c, window, n) {
        var a := [c.received + n] + tail;
        assert a == AcksOf(c, window, sizes);
        forall i | 0 <= i < |a| - 1 ensures a[i + 1] > a[i] + window {
          if i > 0 {
            assert a[i] == tail[i - 1] && a[i + 1] == tail[i];
          }
        }
      } else {
        assert AcksOf(c, window, sizes) == tail;
      }
    }
  }

  /** With counters that start at zero, no acknowledgement is sent before more than a
      window of bytes has been received. */
  lemma NoAckUntilWindowExceeded(window: nat, sizes: seq<nat>)
    requires Sum(sizes) <= window
    ensures AcksOf(Counters(0, 0), window, sizes) == []
  {
    AcksSpacedByWindow(Counters(0, 0), window, sizes);
  }

  /** The counters of a session whose recv_bytes were left holding whatever the
      allocator gave: one byte of input triggers an acknowledgement under the default
      window of 5000000. */
  lemma UninitialisedCountersAckEarly()
    ensures AcksOf(Counters(5000001, 0), DEFAULT_WINDOW_SIZE, [1]) == [5000002]
  {
  }
}
