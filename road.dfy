/** The radio scheduler of package road: SetupLora's timeout defaults and one
    tick of LoraTx, which skips an empty queue and otherwise powers the radio
    up, runs the receive window, drains the outbound queue into one
    '|'-joined frame, transmits it if it is non-empty and powers the radio
    down again. The transceiver is abstract: its calls are recorded in a ghost
    trace. */
module Road {
  import opened Wrappers

  newtype uint32 = x: int | 0 <= x < 0x1_0000_0000

  type Byte = b: int | 0 <= b < 256

  /** A Go string is a byte string, and []byte(s) gives its bytes unchanged. */
  type Msg = seq<Byte>

  /** The ASCII '|' that separates messages in a frame. */
  const Pipe: Byte := 124

  const DefaultTimeoutMs: uint32 := 1000

  /** SetupLora's rule for each timeout: zero means "use the default". The
      resulting timeout is never zero, and a non-zero argument is kept. */
  function TimeoutOrDefault(ms: uint32): (r: uint32)
    ensures r != 0
    ensures ms != 0 ==> r == ms
    ensures ms == 0 ==> r == DefaultTimeoutMs
  {
    if ms == 0 then DefaultTimeoutMs else ms
  }

  // ---------------------------------------------------------------------
  // The frame

  /** One turn of the drain loop: the separator goes in only once the batch
      already holds something. */
  function Append(batch: Msg, msg: Msg): Msg {
    if |batch| > 0 then batch + [Pipe] + msg else msg
  }

  /** The batch the drain loop builds from the messages it receives, in
      order. */
  function Batch(msgs: seq<Msg>): Msg {
    if msgs == [] then [] else Append(Batch(msgs[..|msgs| - 1]), msgs[|msgs| - 1])
  }

  /** Reference: the messages joined with '|', one separator between any two. */
  function Join(msgs: seq<Msg>): Msg {
    if |msgs| == 0 then []
    else if |msgs| == 1 then msgs[0]
    else msgs[0] + [Pipe] + Join(msgs[1..])
  }

  /** The messages from the first non-empty one on. */
  function DropLeadingEmpty(msgs: seq<Msg>): (r: seq<Msg>)
    ensures r == [] || r[0] != []
    ensures |r| <= |msgs| && r == msgs[|msgs| - |r|..]
    ensures forall i :: 0 <= i < |msgs| - |r| ==> msgs[i] == []
  {
    if msgs == [] then []
    else if msgs[0] == [] then DropLeadingEmpty(msgs[1..])
    else msgs
  }

  lemma {:induction false} JoinSnoc(msgs: seq<Msg>, m: Msg)
    requires msgs != []
    ensures Join(msgs + [m]) == Join(msgs) + [Pipe] + m
    decreases |msgs|
  {
    if |msgs| == 1 {
      assert msgs + [m] == [msgs[0], m];
      assert [msgs[0], m][1..] == [m];
    } else {
      assert (msgs + [m])[1..] == msgs[1..] + [m];
      JoinSnoc(msgs[1..], m);
    }
  }

  lemma JoinStartsWithFirst(msgs: seq<Msg>)
    requires msgs != []
    ensures |Join(msgs)| >= |msgs[0]|
  {
  }

  lemma DropLeadingEmptySnoc(msgs: seq<Msg>, m: Msg)
    ensures DropLeadingEmpty(msgs + [m]) ==
      if DropLeadingEmpty(msgs) == [] then (if m == [] then [] else [m])
      else DropLeadingEmpty(msgs) + [m]
    decreases |msgs|
  {
    if msgs != [] {
      assert (msgs + [m])[0] == msgs[0];
      assert (msgs + [m])[1..] == msgs[1..] + [m];
      if msgs[0] == [] {
        DropLeadingEmptySnoc(msgs[1..], m);
      }
    } else {
      assert [] + [m] == [m];
      if m == [] {
        assert [m][1..] == [];
      }
    }
  }

  /** The frame is the '|'-join of the drained messages in FIFO order, except
      that empty messages at the front leave no separator behind. */
  lemma {:induction false} BatchIsJoin(msgs: seq<Msg>)
    ensures Batch(msgs) == Join(DropLeadingEmpty(msgs))
    decreases |msgs|
  {
    if msgs != [] {
      var init, last := msgs[..|msgs| - 1], msgs[|msgs| - 1];
      assert msgs == init + [last];
      BatchIsJoin(init);
      DropLeadingEmptySnoc(init, last);
      var d := DropLeadingEmpty(init);
      if d != [] {
        JoinStartsWithFirst(d);
        JoinSnoc(d, last);
      }
    }
  }

  /** When no message is empty the frame is exactly their '|'-join. */
  lemma BatchOfNonEmpty(msgs: seq<Msg>)
    requires forall i :: 0 <= i < |msgs| ==> msgs[i] != []
    ensures Batch(msgs) == Join(msgs)
  {
    BatchIsJoin(msgs);
  }

  /** The frame is empty exactly when every drained message is. */
  lemma BatchEmptyIff(msgs: seq<Msg>)
    ensures Batch(msgs) == [] <==> forall i :: 0 <= i < |msgs| ==> msgs[i] == []
  {
    BatchIsJoin(msgs);
    var d := DropLeadingEmpty(msgs);
    if d != [] {
      JoinStartsWithFirst(d);
      assert msgs[|msgs| - |d|] == d[0];
    }
  }

  // ---------------------------------------------------------------------
  // The radio's calls in one tick

  /** What the transceiver and the EN pin see. */
  datatype RadioCall = EnHigh | EnLow | Rx(timeoutMs: uint32) | Tx(payload: Msg, timeoutMs: uint32)

  /** What one Rx call gives back: an error, nothing, or a packet. Each is only
      logged. */
  datatype RxResult = RxError | RxNothing | RxPacket(buf: Msg)

  function RxCalls(n: nat, rxTimeoutMs: uint32): seq<RadioCall> {
    seq(n, _ => Rx(rxTimeoutMs))
  }

  function TxCalls(batch: Msg, txTimeoutMs: uint32): seq<RadioCall> {
    if |batch| > 0 then [Tx(batch, txTimeoutMs)] else []
  }

  /** The calls of one tick of LoraTx on a queue holding `queue`, with
      `rxCount` Rx calls in the receive window. */
  function CycleCalls(queue: seq<Msg>, rxCount: nat, rxTimeoutMs: uint32, txTimeoutMs: uint32)
    : seq<RadioCall>
  {
    if queue == [] then []
    else [EnHigh] + RxCalls(rxCount, rxTimeoutMs) + TxCalls(Batch(queue), txTimeoutMs) + [EnLow]
  }

  predicate IsTx(c: RadioCall) { c.Tx? }

  predicate IsEn(c: RadioCall) { c == EnHigh || c == EnLow }

  /** The shape of a tick: nothing at all on an empty queue; otherwise EN goes
      high first and low last and is not touched in between, every Rx carries
      the receive timeout, and there is one Tx, of the whole batch with the
      transmit timeout, exactly when some queued message is non-empty. */
  lemma CycleShape(queue: seq<Msg>, rxCount: nat, rxTimeoutMs: uint32, txTimeoutMs: uint32)
    ensures queue == [] ==> CycleCalls(queue, rxCount, rxTimeoutMs, txTimeoutMs) == []
    ensures queue != [] ==>
      var calls := CycleCalls(queue, rxCount, rxTimeoutMs, txTimeoutMs);
      && |calls| >= 2
      && calls[0] == EnHigh
      && calls[|calls| - 1] == EnLow
      && (forall i :: 0 < i < |calls| - 1 ==> !IsEn(calls[i]))
      && (forall i :: 0 < i <= rxCount ==> calls[i] == Rx(rxTimeoutMs))
      && (forall i :: 0 <= i < |calls| && IsTx(calls[i]) ==>
            i == rxCount + 1 && calls[i] == Tx(Batch(queue), txTimeoutMs))
      && ((exists i :: 0 <= i < |calls| && IsTx(calls[i])) <==>
            (exists j :: 0 <= j < |queue| && queue[j] != []))
  {
    if queue != [] {
      var calls := CycleCalls(queue, rxCount, rxTimeoutMs, txTimeoutMs);
      var rx := RxCalls(rxCount, rxTimeoutMs);
      var tx := TxCalls(Batch(queue), txTimeoutMs);
      assert calls == [EnHigh] + rx + tx + [EnLow];
      forall i | 0 < i <= rxCount
        ensures calls[i] == Rx(rxTimeoutMs)
      {
        assert calls[i] == rx[i - 1];
      }
      BatchEmptyIff(queue);
      if |Batch(queue)| > 0 {
        assert calls[rxCount + 1] == Tx(Batch(queue), txTimeoutMs);
      }
    }
  }

  /** The example frame: "m1", "m2", "m3" go out as "m1|m2|m3", after one
      receive call. */
  lemma ThreeMessages()
    ensures CycleCalls([[109, 49], [109, 50], [109, 51]], 1, 1000, 1000)
            == [EnHigh, Rx(1000), Tx([109, 49, 124, 109, 50, 124, 109, 51], 1000), EnLow]
  {
    var msgs: seq<Msg> := [[109, 49], [109, 50], [109, 51]];
    assert msgs[..2] == [[109, 49], [109, 50]];
    assert msgs[..2][..1] == [[109, 49]];
    assert msgs[..2][..1][..0] == [];
    assert Batch(msgs[..2][..1]) == [109, 49];
    assert Batch(msgs[..2]) == [109, 49, 124, 109, 50];
    assert msgs[..|msgs| - 1] == msgs[..2];
    assert Batch(msgs) == [109, 49, 124, 109, 50, 124, 109, 51];
    assert RxCalls(1, 1000) == [Rx(1000)];
  }

  // ---------------------------------------------------------------------
  // The bounded channel

  /** A send that does not block: the value is dropped when the buffer is
      full. */
  function Offer<T>(q: seq<T>, capacity: nat, x: T): seq<T> {
    if |q| < capacity then q + [x] else q
  }

  function OfferAll<T>(q: seq<T>, capacity: nat, xs: seq<T>): seq<T>
    decreases |xs|
  {
    if xs == [] then q else OfferAll(Offer(q, capacity, xs[0]), capacity, xs[1..])
  }

  function Min(a: int, b: int): int { if a < b then a else b }

  /** Offering values one by one keeps the oldest ones that fit, in order, and
      drops every later one. */
  lemma {:induction false} OfferAllKeepsPrefix<T>(q: seq<T>, capacity: nat, xs: seq<T>)
    requires |q| <= capacity
    ensures OfferAll(q, capacity, xs) == q + xs[..Min(capacity - |q|, |xs|)]
    decreases |xs|
  {
    if xs == [] {
    } else if |q| < capacity {
      OfferAllKeepsPrefix(q + [xs[0]], capacity, xs[1..]);
      assert q + [xs[0]] + xs[1..][..Min(capacity - |q| - 1, |xs| - 1)]
             == q + xs[..Min(capacity - |q|, |xs|)];
    } else {
      OfferAllKeepsPrefix(q, capacity, xs[1..]);
    }
  }

  /** capacity + 1 sends into an empty channel: the first capacity are held, in
      order, and the last is dropped. */
  lemma OverflowDropsNewest<T>(capacity: nat, xs: seq<T>)
    requires |xs| == capacity + 1
    ensures OfferAll([], capacity, xs) == xs[..capacity]
    ensures |OfferAll([], capacity, xs)| == capacity
  {
    OfferAllKeepsPrefix([], capacity, xs);
  }

  /** A buffered Go channel: a FIFO of at most `capacity` values. */
  class Queue<T> {
    var contents: seq<T>
    const capacity: nat

    ghost predicate Valid()
      reads this
    {
      |contents| <= capacity
    }

    constructor (capacity: nat)
      ensures Valid() && contents == [] && this.capacity == capacity
    {
      contents := [];
      this.capacity := capacity;
    }

    /** select { case ch <- x: default: } */
    method TryPush(x: T) returns (ok: bool)
      requires Valid()
      modifies this
      ensures Valid()
      ensures ok == (|old(contents)| < capacity)
      ensures contents == Offer(old(contents), capacity, x)
    {
      ok := |contents| < capacity;
      if ok {
        contents := contents + [x];
      }
    }

    /** select { case x := <-ch: ... default: } */
    method TryPop() returns (x: Option<T>)
      requires Valid()
      modifies this
      ensures Valid()
      ensures old(contents) == [] ==> x == None && contents == []
      ensures old(contents) != [] ==> x == Some(old(contents)[0]) && contents == old(contents)[1..]
    {
      if contents == [] {
        x := None;
      } else {
        x := Some(contents[0]);
        contents := contents[1..];
      }
    }
  }

  // ---------------------------------------------------------------------
  // The radio

  class Radio {
    var en: bool
    var rxTimeoutMs: uint32
    var txTimeoutMs: uint32
    const txQ: Queue<Msg>
    ghost var calls: seq<RadioCall>

    ghost predicate Valid()
      reads this, txQ
    {
      txQ.Valid()
    }

    /** SetupLora, without the pins, SPI and driver bring-up: both timeouts
        defaulted, the outbound queue kept, and EN driven high. */
    constructor SetupLora(txQ: Queue<Msg>, rxTimeoutMs: uint32, txTimeoutMs: uint32)
      requires txQ.Valid()
      ensures Valid()
      ensures this.txQ == txQ
      ensures this.rxTimeoutMs == TimeoutOrDefault(rxTimeoutMs)
      ensures this.txTimeoutMs == TimeoutOrDefault(txTimeoutMs)
      ensures en && calls == [EnHigh]
    {
      this.rxTimeoutMs := TimeoutOrDefault(rxTimeoutMs);
      this.txTimeoutMs := TimeoutOrDefault(txTimeoutMs);
      this.txQ := txQ;
      en := true;
      calls := [EnHigh];
    }

    /** EN.High() / EN.Low(). */
    method SetEn(high: bool)
      modifies this`en, this`calls
      ensures en == high
      ensures calls == old(calls) + [if high then EnHigh else EnLow]
    {
      en := high;
      calls := calls + [if high then EnHigh else EnLow];
    }

    /** One SxDevice.Rx(RxTimeoutMs) call; what it returns is only logged. */
    method Receive(result: RxResult)
      modifies this`calls
      ensures calls == old(calls) + [Rx(rxTimeoutMs)]
    {
      calls := calls + [Rx(rxTimeoutMs)];
    }

    /** One SxDevice.Tx(payload, TxTimeoutMs) call; an error is only logged. */
    method Transmit(payload: Msg)
      modifies this`calls
      ensures calls == old(calls) + [Tx(payload, txTimeoutMs)]
    {
      calls := calls + [Tx(payload, txTimeoutMs)];
    }

    /** One tick of LoraTx. `rxResults` are the replies of the Rx calls the
        wall-clock receive window makes; the window is tested right after its
        start time is taken, so it always makes at least one. The queue ends
        empty, the trace grows by CycleCalls, and a tick that did anything
        leaves EN low. */
    method LoraTxCycle(rxResults: seq<RxResult>)
      requires |rxResults| >= 1
      requires Valid()
      modifies this`en, this`calls, txQ
      ensures Valid()
      ensures txQ.contents == []
      ensures calls == old(calls) + CycleCalls(old(txQ.contents), |rxResults|, rxTimeoutMs, txTimeoutMs)
      ensures old(txQ.contents) == [] ==> en == old(en)
      ensures old(txQ.contents) != [] ==> !en
    {
      if |txQ.contents| == 0 {
        return;
      }
      ghost var queued := txQ.contents;

      SetEn(true);

      for i := 0 to |rxResults|
        invariant calls == old(calls) + [EnHigh] + RxCalls(i, rxTimeoutMs)
        invariant txQ.contents == queued
      {
        Receive(rxResults[i]);
        assert RxCalls(i + 1, rxTimeoutMs) == RxCalls(i, rxTimeoutMs) + [Rx(rxTimeoutMs)];
      }
      ghost var afterRx := calls;

      var batchMsg: Msg := [];
      var eom := false;
      ghost var drained := 0;
      assert queued[0..] == queued;
      while !eom
        invariant txQ.Valid() && calls == afterRx
        invariant 0 <= drained <= |queued|
        invariant txQ.contents == queued[drained..]
        invariant batchMsg == Batch(queued[..drained])
        invariant eom ==> txQ.contents == [] && drained == |queued|
        decreases |txQ.contents|, !eom
      {
        var msg := txQ.TryPop();
        match msg
        case Some(m) =>
          assert queued[..drained + 1][..drained] == queued[..drained];
          if |batchMsg| > 0 {
            batchMsg := batchMsg + [Pipe] + m;
          } else {
            batchMsg := m;
          }
          drained := drained + 1;
        case None =>
          eom := true;
      }
      assert queued[..drained] == queued;

      if |batchMsg| > 0 {
        Transmit(batchMsg);
      }

      SetEn(false);
    }
  }

  /** Right after SetupLora, a tick on an empty queue is skipped and leaves the
      radio enabled: EN first goes low only in a tick that has something
      queued. */
  method SetupThenIdleTick() returns (en: bool, rxTimeoutMs: uint32, txTimeoutMs: uint32)
    ensures en
    ensures rxTimeoutMs == DefaultTimeoutMs && txTimeoutMs == DefaultTimeoutMs
  {
    var q := new Queue<Msg>(250);
    var radio := new Radio.SetupLora(q, 0, 0);
    radio.LoraTxCycle([RxNothing]);
    en, rxTimeoutMs, txTimeoutMs := radio.en, radio.rxTimeoutMs, radio.txTimeoutMs;
  }

  /** A queued empty message still wakes the radio, but the frame it makes is
      empty, so no Tx follows; the tick drains the queue and leaves the radio
      disabled. */
  method EmptyMessageTick() returns (radio: Radio)
    ensures !radio.en && radio.txQ.contents == []
    ensures radio.calls == [EnHigh, EnHigh, Rx(DefaultTimeoutMs), EnLow]
  {
    var q := new Queue<Msg>(250);
    radio := new Radio.SetupLora(q, 0, 0);
    var ok := q.TryPush([]);
    assert ok && q.contents == [[]];
    radio.LoraTxCycle([RxNothing]);
    assert Batch([[]]) == [];
    assert RxCalls(1, radio.rxTimeoutMs) == [Rx(DefaultTimeoutMs)];
  }
}
