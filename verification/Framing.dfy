/**
 Taking messages out of a byte stream that arrives in arbitrary pieces.
 */
module Framing {
  import opened Wire

  // -------------------------------------------------------------------------------------------
  // Complete messages and undelivered tail of a byte string
  // -------------------------------------------------------------------------------------------

  function Messages(s: seq<Byte>): seq<Message>
    decreases |s|
  {
    if HasMessage(s) then [FirstMessage(s)] + Messages(s[HEADER + PayloadSize(s)..]) else []
  }

  function Tail(s: seq<Byte>): (r: seq<Byte>)
    ensures |r| <= |s|
    decreases |s|
  {
    if HasMessage(s) then Tail(s[HEADER + PayloadSize(s)..]) else s
  }

  lemma RestOfConcat(a: seq<Byte>, b: seq<Byte>, n: nat)
    requires n <= |a|
    ensures (a + b)[n..] == a[n..] + b
  {
  }

  lemma FirstStays(a: seq<Byte>, b: seq<Byte>)
    requires HasMessage(a)
    ensures HasMessage(a + b) && FirstMessage(a + b) == FirstMessage(a) && PayloadSize(a + b) == PayloadSize(a)
    ensures (a + b)[HEADER + PayloadSize(a)..] == a[HEADER + PayloadSize(a)..] + b
  {
    forall from: nat, width: nat | from + width <= HEADER ensures Field(a + b, from, width) == Field(a, from, width) {
      assert (a + b)[from..from + width] == a[from..from + width];
    }
    RestOfConcat(a, b, HEADER + PayloadSize(a));
    assert (a + b)[HEADER..HEADER + PayloadSize(a)] == a[HEADER..HEADER + PayloadSize(a)];
  }

  /** Cutting a stream in two changes nothing, wherever the cut is. */
  lemma {:induction false} CutAnywhere(a: seq<Byte>, b: seq<Byte>)
    ensures Messages(a + b) == Messages(a) + Messages(Tail(a) + b)
    ensures Tail(a + b) == Tail(Tail(a) + b)
    decreases |a|
  {
    if HasMessage(a) {
      FirstStays(a, b);
      CutAnywhere(a[HEADER + PayloadSize(a)..], b);
    }
  }

  /** `tail` is a proper prefix of a message. */
  predicate Unfinished(tail: seq<Byte>, m: Message) {
    |tail| < |Encode(m)| && tail == Encode(m)[..|tail|]
  }

  lemma UnfinishedHasNone(tail: seq<Byte>, m: Message)
    requires Fits(m) && Unfinished(tail, m)
    ensures !HasMessage(tail)
  {
    if |tail| >= HEADER {
      assert tail[..HEADER] == Header(m);
      HeaderFields(m, tail);
    }
  }

  /** What was sent comes out, in order, and the rest stays in the buffer. */
  lemma {:induction false} EncodedComesOut(ms: seq<Message>, tail: seq<Byte>, next: Message)
    requires AllFit(ms) && Fits(next) && Unfinished(tail, next)
    ensures Messages(EncodeAll(ms) + tail) == ms && Tail(EncodeAll(ms) + tail) == tail
  {
    if ms == [] {
      assert EncodeAll(ms) + tail == tail;
      UnfinishedHasNone(tail, next);
    } else {
      FirstIsEncoded(ms[0], EncodeAll(ms[1..]) + tail);
      Associates(Encode(ms[0]), EncodeAll(ms[1..]), tail);
      EncodedComesOut(ms[1..], tail, next);
    }
  }

  lemma Associates(a: seq<Byte>, b: seq<Byte>, c: seq<Byte>)
    ensures a + (b + c) == a + b + c
  {
  }

  /** The invocations of the callbacks: messages whose type has none are dropped. */
  function Handled(ms: seq<Message>, types: set<nat>): seq<Message> {
    if ms == [] then [] else
      var k := |ms| - 1;
      Handled(ms[..k], types) + if ms[k].packageType in types then [ms[k]] else []
  }

  /** Nothing is handed out but what a callback is for; with a callback for every type nothing is dropped. */
  lemma {:induction false} HandledMeans(ms: seq<Message>, types: set<nat>)
    ensures forall m :: m in Handled(ms, types) <==> m in ms && m.packageType in types
    ensures (forall m :: m in ms ==> m.packageType in types) <==> Handled(ms, types) == ms
    ensures |Handled(ms, types)| <= |ms|
  {
    if ms != [] {
      var k := |ms| - 1;
      HandledMeans(ms[..k], types);
      assert ms == ms[..k] + [ms[k]];
    }
  }

  lemma {:induction false} HandledConcat(a: seq<Message>, b: seq<Message>, types: set<nat>)
    ensures Handled(a + b, types) == Handled(a, types) + Handled(b, types)
  {
    if b == [] {
      assert a + b == a;
    } else {
      var k := |b| - 1;
      HandledConcat(a, b[..k], types);
      assert (a + b)[..|a| + k] == a + b[..k] && (a + b)[|a| + k] == b[k];
    }
  }

  // -------------------------------------------------------------------------------------------
  // One call on a fixed buffer
  // -------------------------------------------------------------------------------------------

  /** A 32-bit field; bytes past the end of the buffer can be anything. */
  method ReadField(buffer: array<Byte>, at: nat) returns (n: nat)
    ensures at + 4 <= buffer.Length ==> n == Number(buffer[at..at + 4])
  {
    var s: seq<Byte> := [];
    var i := 0;
    while i < 4
      invariant i <= 4 && |s| == i
      invariant at + i <= buffer.Length ==> s == buffer[at..at + i]
    {
      var b: Byte := *;
      if at + i < buffer.Length {
        b := buffer[at + i];
      }
      s := s + [b];
      i := i + 1;
    }
    n := Number(s);
  }

  method Shift(buffer: array<Byte>, from: nat, count: nat)
    requires from + count <= buffer.Length
    modifies buffer
    ensures buffer[..count] == old(buffer[from..from + count])
    ensures buffer[count..] == old(buffer[count..])
  {
    for i := 0 to count
      invariant forall k :: 0 <= k < i ==> buffer[k] == old(buffer[from + k])
      invariant forall k :: i <= k < buffer.Length ==> buffer[k] == old(buffer[k])
    {
      buffer[i] := buffer[from + i];
    }
  }

  lemma Window(buffer: array<Byte>, received: nat, at: nat, i: nat, j: nat)
    requires received <= buffer.Length && i <= j && at + j <= received
    ensures buffer[..received][at..][i..j] == buffer[at + i..at + j]
  {
    var s, w := buffer[..received][at..][i..j], buffer[at + i..at + j];
    assert |s| == |w| && forall k :: 0 <= k < |s| ==> s[k] == w[k];
  }

  /** What `info` shows as the payload size at offset `at`; it means something once the size field has arrived. */
  predicate SizeShown(stream: seq<Byte>, at: nat, size: nat) {
    at + 12 <= |stream| ==> size == Field(stream[at..], 8, 4)
  }

  method ReadSize(buffer: array<Byte>, received: nat, at: nat, ghost stream: seq<Byte>) returns (size: nat)
    requires received <= buffer.Length && buffer[..received] == stream
    ensures SizeShown(stream, at, size)
  {
    size := ReadField(buffer, at + 8);
    if at + 12 <= received {
      Window(buffer, received, at, 8, 12);
    }
  }

  method ReadMessage(buffer: array<Byte>, received: nat, at: nat, size: nat, ghost stream: seq<Byte>)
    returns (m: Message)
    requires received <= buffer.Length && at + HEADER + size <= received && buffer[..received] == stream
    requires size == PayloadSize(stream[at..])
    ensures m == FirstMessage(stream[at..])
  {
    var unitType := ReadField(buffer, at + 4);
    var packageType := ReadField(buffer, at + 12);
    var source, target := Number(buffer[at + 16..at + 24]), Number(buffer[at + 24..at + 32]);
    m := Message(unitType, packageType, source, target, buffer[at + HEADER..at + HEADER + size]);
    Window(buffer, received, at, 4, 8);
    Window(buffer, received, at, 12, 16);
    Window(buffer, received, at, 16, 24);
    Window(buffer, received, at, 24, 32);
    Window(buffer, received, at, HEADER, HEADER + size);
  }

  predicate DelimiterAt(b: seq<Byte>, i: nat) {
    i + 4 <= |b| && Field(b, i, 4) == DELIM
  }

  predicate HasDelimiter(b: seq<Byte>) {
    exists i :: 0 <= i < |b| && DelimiterAt(b, i)
  }

  /** The scan every call begins with; it runs past the buffer if no offset has the delimiter. */
  method FindDelimiter(buffer: array<Byte>) returns (at: nat)
    ensures at + 4 <= buffer.Length ==> DelimiterAt(buffer[..], at)
    ensures at + 4 > buffer.Length ==> !HasDelimiter(buffer[..])
  {
    at := 0;
    while at + 4 <= buffer.Length
      invariant forall i :: 0 <= i < at ==> !DelimiterAt(buffer[..], i)
    {
      var word := ReadField(buffer, at);
      assert buffer[..][at..at + 4] == buffer[at..at + 4];
      if word == DELIM {
        return;
      }
      at := at + 1;
    }
  }

  /**
   Look for a delimiter anywhere in the buffer, then deliver the complete messages among the first
   `received` bytes and move what is left to the start of the buffer.  Bytes after `received` are
   stale.  Without a delimiter the scan leaves the buffer, and nothing is said of what follows.
   */
  method ExtractItems(buffer: array<Byte>, received: nat, types: set<nat>)
    returns (found: bool, unprocessed: nat, calls: seq<Message>)
    requires received <= buffer.Length
    modifies buffer
    ensures found <==> HasDelimiter(old(buffer[..]))
    ensures !found ==> unprocessed == received && calls == [] && buffer[..] == old(buffer[..])
    ensures found ==>
      var stream := old(buffer[..received]);
      && calls == Handled(Messages(stream), types)
      && unprocessed == |Tail(stream)| && buffer[..unprocessed] == Tail(stream)
      && buffer[unprocessed..] == old(buffer[unprocessed..])
  {
    var start := FindDelimiter(buffer);
    found, unprocessed, calls := start + 4 <= buffer.Length, received, [];
    if found {
      ghost var stream := buffer[..received];
      var at: nat;
      unprocessed, at, calls := DeliverAll(buffer, received, types, stream);
      LastBytes(buffer, received, at);
      if unprocessed > 0 {
        Shift(buffer, at, unprocessed);
      }
    }
  }

  lemma LastBytes(buffer: array<Byte>, received: nat, at: nat)
    requires at <= received <= buffer.Length
    ensures buffer[..received][at..] == buffer[at..received]
  {
  }

  method DeliverAll(buffer: array<Byte>, received: nat, types: set<nat>, ghost stream: seq<Byte>)
    returns (remaining: nat, at: nat, calls: seq<Message>)
    requires received <= buffer.Length && buffer[..received] == stream
    ensures at <= received && remaining == received - at && Tail(stream) == stream[at..]
    ensures calls == Handled(Messages(stream), types)
  {
    remaining, at, calls := received, 0, [];
    ghost var done := [];
    assert stream[0..] == stream;
    var size := ReadSize(buffer, received, 0, stream);
    while size + HEADER <= remaining && remaining > 0
      invariant size >= 0 && remaining == received - at
      invariant SizeShown(stream, at, size) && Delivered(stream, at, done, calls, types)
      decreases remaining
    {
      at, size, calls, done := DeliverOne(buffer, received, types, at, size, calls, stream, done);
      remaining := received - at;
    }
    NoMore(stream, at, done, calls, types);
  }

  method DeliverOne(buffer: array<Byte>, received: nat, types: set<nat>, at: nat, size: nat, calls: seq<Message>,
                    ghost stream: seq<Byte>, ghost done: seq<Message>)
    returns (at': nat, size': nat, calls': seq<Message>, ghost done': seq<Message>)
    requires received <= buffer.Length && buffer[..received] == stream
    requires SizeShown(stream, at, size) && Delivered(stream, at, done, calls, types) && at + HEADER + size <= received
    ensures at < at' <= received && SizeShown(stream, at', size') && Delivered(stream, at', done', calls', types)
  {
    OneMore(stream, at, size, done, calls, types);
    var m := ReadMessage(buffer, received, at, size, stream);
    done', calls' := done + [m], CallsWith(calls, m, types);
    at' := at + HEADER + size;
    size' := ReadSize(buffer, received, at', stream);
  }

  /** The bytes before `at` have been dealt with. */
  predicate Delivered(stream: seq<Byte>, at: nat, done: seq<Message>, calls: seq<Message>, types: set<nat>) {
    && at <= |stream|
    && Messages(stream) == done + Messages(stream[at..]) && Tail(stream) == Tail(stream[at..])
    && calls == Handled(done, types)
  }

  function CallsWith(calls: seq<Message>, m: Message, types: set<nat>): seq<Message> {
    if m.packageType in types then calls + [m] else calls
  }

  lemma OneMore(stream: seq<Byte>, at: nat, size: nat, done: seq<Message>, calls: seq<Message>, types: set<nat>)
    requires Delivered(stream, at, done, calls, types)
    requires SizeShown(stream, at, size) && at + HEADER + size <= |stream|
    ensures HasMessage(stream[at..]) && size == PayloadSize(stream[at..])
    ensures var m := FirstMessage(stream[at..]);
            Delivered(stream, at + HEADER + size, done + [m], CallsWith(calls, m, types), types)
  {
    var s := stream[at..];
    assert s[HEADER + size..] == stream[at + HEADER + size..];
    assert (done + [FirstMessage(s)])[..|done|] == done;
  }

  lemma NoMore(stream: seq<Byte>, at: nat, done: seq<Message>, calls: seq<Message>, types: set<nat>)
    requires Delivered(stream, at, done, calls, types) && !HasMessage(stream[at..])
    ensures Messages(stream) == done && Tail(stream) == stream[at..]
  {
    assert done + [] == done;
  }

  // -------------------------------------------------------------------------------------------
  // Runs of the client's receive loop
  // -------------------------------------------------------------------------------------------

  const MAX_DATA_SIZE: nat := 1024 * 1024 * 2

  /** What a call expects to find at the start of the buffer. */
  predicate AtDelimiter(s: seq<Byte>) {
    4 <= |s| && Field(s, 0, 4) == DELIM
  }

  /** How many of the messages the first n bytes of their encoding complete. */
  function Completed(ms: seq<Message>, n: nat): (k: nat)
    ensures k <= |ms|
  {
    if ms == [] || n < |Encode(ms[0])| then 0 else 1 + Completed(ms[1..], n - |Encode(ms[0])|)
  }

  lemma PrefixOfConcat(a: seq<Byte>, b: seq<Byte>, n: nat)
    requires |a| <= n <= |a + b|
    ensures (a + b)[..n] == a + b[..n - |a|]
  {
  }

  /** A prefix of the sent bytes is some messages and the start of the next. */
  lemma {:induction false} PrefixShape(ms: seq<Message>, n: nat) returns (tail: seq<Byte>)
    requires n <= |EncodeAll(ms)|
    ensures var k := Completed(ms, n);
            EncodeAll(ms)[..n] == EncodeAll(ms[..k]) + tail && if k == |ms| then tail == [] else Unfinished(tail, ms[k])
  {
    var s, k := EncodeAll(ms)[..n], Completed(ms, n);
    if k == 0 {
      tail := s;
      if ms != [] {
        assert s == Encode(ms[0])[..n];
      }
    } else {
      var first := |Encode(ms[0])|;
      tail := PrefixShape(ms[1..], n - first);
      PrefixOfConcat(Encode(ms[0]), EncodeAll(ms[1..]), n);
      assert ms[..k][1..] == ms[1..][..k - 1];
      Associates(Encode(ms[0]), EncodeAll(ms[1..][..k - 1]), tail);
    }
  }

  /** A prefix of the sent bytes holds exactly the completed messages; the tail is the start of the next one. */
  lemma PrefixComesOut(ms: seq<Message>, n: nat)
    requires AllFit(ms) && n <= |EncodeAll(ms)|
    ensures var s, k := EncodeAll(ms)[..n], Completed(ms, n);
            && Messages(s) == ms[..k] && s == EncodeAll(ms[..k]) + Tail(s)
            && (if k == |ms| then Tail(s) == [] else Unfinished(Tail(s), ms[k]))
  {
    var k := Completed(ms, n);
    var tail := PrefixShape(ms, n);
    EncodedComesOut(ms[..k], tail, if k == |ms| then Message(0, 0, 0, 0, []) else ms[k]);
  }

  lemma UnfinishedStart(m: Message, tail: seq<Byte>, more: seq<Byte>)
    requires Fits(m) && Unfinished(tail, m) && |tail + more| >= 4
    requires var n := if |tail + more| < |Encode(m)| then |tail + more|
             else |Encode(m)|; (tail + more)[..n] == Encode(m)[..n]
    ensures AtDelimiter(tail + more)
  {
    HeaderFields(m, Encode(m));
    assert (tail + more)[..4] == Encode(m)[..4];
    assert (tail + more)[0..4] == (tail + more)[..4] && Encode(m)[0..4] == Encode(m)[..4];
  }

  /** The receiving side of the client. */
  class Receiver {
    const buffer: array<Byte>
    const types: set<nat>
    var unprocessed: nat
    var calls: seq<Message>
    ghost var stream: seq<Byte>  // every byte received so far

    ghost predicate Valid()
      reads this, buffer
    {
      && buffer.Length == MAX_DATA_SIZE
      && unprocessed == |Tail(stream)| <= MAX_DATA_SIZE - 1 && buffer[..unprocessed] == Tail(stream)
      && calls == Handled(Messages(stream), types)
    }

    /** Nothing has been received yet. */
    ghost predicate Untouched()
      reads this, buffer
    {
      Valid() && stream == [] && forall i :: 0 <= i < buffer.Length ==> buffer[i] == 0
    }

    /** The buffer starts with a delimiter, of the message under way or of one that has been delivered. */
    ghost predicate Primed()
      reads this, buffer
    {
      Valid() && buffer[..4] == DelimiterBytes()
    }

    constructor (types: set<nat>)
      ensures Untouched() && fresh(buffer) && this.types == types && calls == []
    {
      buffer := new Byte[MAX_DATA_SIZE](i => 0);
      this.types, unprocessed, calls, stream := types, 0, [], [];
    }

    /**
     One `recv` into the free part of the buffer, then one extraction, which needs a delimiter somewhere
     in the buffer: the scan for it does not stop at what has been received.
     */
    method Receive(chunk: seq<Byte>) returns (found: bool)
      requires Valid() && 0 < |chunk| <= MAX_DATA_SIZE - 1 - unprocessed
      modifies this, buffer
      ensures found <==> HasDelimiter(Filled(old(buffer[..]), old(unprocessed), chunk))
      ensures !found ==> stream == old(stream) && calls == old(calls)
      ensures found ==>
        && Valid() && stream == old(stream) + chunk
        && old(calls) <= calls && calls == Handled(Messages(stream), types)
        && unprocessed == |Tail(stream)| && buffer[..unprocessed] == Tail(stream)
        && buffer[unprocessed..] == Filled(old(buffer[..]), old(unprocessed), chunk)[unprocessed..]
    {
      ghost var before, tail := stream, Tail(stream);
      Put(chunk);
      ghost var filled := buffer[..];
      assert buffer[..unprocessed + |chunk|] == tail + chunk;
      var handled, left;
      found, left, handled := ExtractItems(buffer, unprocessed + |chunk|, types);
      if found {
        CutAnywhere(before, chunk);
        HandledConcat(Messages(before), Messages(tail + chunk), types);
        unprocessed, calls, stream := left, calls + handled, stream + chunk;
        assert filled[unprocessed..] == buffer[unprocessed..];
      }
    }

    method Put(chunk: seq<Byte>)
      requires buffer.Length == MAX_DATA_SIZE && unprocessed + |chunk| <= MAX_DATA_SIZE
      modifies buffer
      ensures buffer[..] == Filled(old(buffer[..]), unprocessed, chunk)
      ensures buffer[..unprocessed] == old(buffer[..unprocessed])
      ensures buffer[unprocessed..unprocessed + |chunk|] == chunk
    {
      for i := 0 to |chunk|
        invariant buffer[..unprocessed] == old(buffer[..unprocessed])
        invariant forall k :: 0 <= k < i ==> buffer[unprocessed + k] == chunk[k]
        invariant buffer[unprocessed + i..] == old(buffer[unprocessed + i..])
      {
        buffer[unprocessed + i] := chunk[i];
      }
    }

    /**
     After any sequence of chunks: if the sender sent `ms` and n bytes have arrived, exactly the
     messages completed by then have been handed out, in order, the buffer holds the tail, and
     there is room for the next chunk.
     */
    lemma Received(ms: seq<Message>, n: nat)
      requires Valid() && AllFit(ms) && n <= |EncodeAll(ms)| && stream == EncodeAll(ms)[..n]
      ensures var k := Completed(ms, n);
              && calls == Handled(ms[..k], types)
              && EncodeAll(ms)[..n] == EncodeAll(ms[..k]) + buffer[..unprocessed]
              && (k == |ms| ==> unprocessed == 0)
              && (k < |ms| && |Encode(ms[k])| < MAX_DATA_SIZE ==> unprocessed < MAX_DATA_SIZE - 1)
    {
      PrefixComesOut(ms, n);
    }

    /**
     The whole of what a sender wrote, in pieces of any size that the free part of the buffer takes: all
     messages are handed out, once and in order, and nothing is left over, exactly if the first piece has
     at least four bytes.  Otherwise the very first scan leaves the buffer.
     */
    method ReceiveAll(bytes: seq<Byte>, ghost ms: seq<Message>) returns (delivered: bool, first: nat)
      requires Untouched() && AllFit(ms) && bytes == EncodeAll(ms)
      requires forall m :: m in ms ==> |Encode(m)| < MAX_DATA_SIZE
      modifies this, buffer
      ensures if bytes == [] then first == 0 else 0 < first <= |bytes|
      ensures delivered <==> bytes == [] || first >= 4
      ensures delivered ==> Valid() && stream == bytes && calls == Handled(ms, types) && unprocessed == 0
      ensures !delivered ==> calls == []
    {
      delivered, first := true, 0;
      if bytes != [] {
        RoomLeft(ms, 0);
        first :| 0 < first <= |bytes| && first <= MAX_DATA_SIZE - 1 - unprocessed;
        assert bytes[0..first] == bytes[..first];
        delivered := ReceiveFirst(bytes[..first], ms);
        if delivered {
          ReceiveRest(bytes, first, ms);
        }
      }
      if delivered {
        assert bytes[..|bytes|] == bytes;
        NothingLeft(ms);
      }
    }

    /** The first piece decides whether there is a delimiter to be found. */
    method ReceiveFirst(chunk: seq<Byte>, ghost ms: seq<Message>) returns (found: bool)
      requires Untouched() && AllFit(ms) && 0 < |chunk| <= |EncodeAll(ms)| && chunk == EncodeAll(ms)[..|chunk|]
      requires |chunk| <= MAX_DATA_SIZE - 1
      modifies this, buffer
      ensures found <==> |chunk| >= 4
      ensures found ==> Primed() && stream == chunk
      ensures !found ==> calls == old(calls) == []
    {
      ghost var filled := Filled(buffer[..], 0, chunk);
      PieceStarts(ms, 0, chunk);
      assert EncodeAll(ms)[..0] == [] && Tail([]) + chunk == chunk;
      if |chunk| < 4 {
        NoDelimiter(filled);
      } else {
        assert filled[..4] == chunk[..4];
        DelimiterFirst(filled);
      }
      found := Receive(chunk);
      if found {
        assert [] + chunk == chunk;
        TailStarts(ms, |chunk|);
        StaysPrimed(filled, buffer[..], Tail(stream));
      }
    }

    /** From then on every scan stops at the start of the buffer. */
    method ReceiveRest(bytes: seq<Byte>, first: nat, ghost ms: seq<Message>)
      requires Primed() && AllFit(ms) && bytes == EncodeAll(ms) && first <= |bytes| && stream == bytes[..first]
      requires forall m :: m in ms ==> |Encode(m)| < MAX_DATA_SIZE
      modifies this, buffer
      ensures Primed() && stream == bytes
    {
      var arrived := first;
      while arrived < |bytes|
        invariant Primed() && arrived <= |bytes| && stream == bytes[..arrived]
        decreases |bytes| - arrived
      {
        RoomLeft(ms, arrived);
        var n: nat :| 0 < n <= |bytes| - arrived && n <= MAX_DATA_SIZE - 1 - unprocessed;
        ReceiveNext(bytes[arrived..arrived + n], arrived, ms);
        NextPart(bytes, arrived, n);
        arrived := arrived + n;
      }
      assert bytes[..|bytes|] == bytes;
    }

    method ReceiveNext(chunk: seq<Byte>, ghost n: nat, ghost ms: seq<Message>)
      requires Primed() && AllFit(ms) && n + |chunk| <= |EncodeAll(ms)| && stream == EncodeAll(ms)[..n]
      requires chunk == EncodeAll(ms)[n..n + |chunk|] && 0 < |chunk| <= MAX_DATA_SIZE - 1 - unprocessed
      modifies this, buffer
      ensures Primed() && stream == old(stream) + chunk
    {
      ghost var filled := Filled(buffer[..], unprocessed, chunk);
      assert HasDelimiter(filled) && filled[..4] == DelimiterBytes() by {
        PieceStarts(ms, n, chunk);
        FilledPrimed(buffer[..], unprocessed, Tail(stream), chunk);
      }
      var found := Receive(chunk);
      NextPrimed(ms, n, chunk, filled, buffer[..]);
    }

    lemma NothingLeft(ms: seq<Message>)
      requires Valid() && AllFit(ms) && stream == EncodeAll(ms)
      ensures calls == Handled(ms, types) && unprocessed == 0
    {
      var n := |EncodeAll(ms)|;
      assert EncodeAll(ms)[..n] == EncodeAll(ms) && ms[..|ms|] == ms;
      CompletedAll(ms);
      Received(ms, n);
    }

    /** Unless all messages are complete, one of them is under way. */
    lemma RoomLeft(ms: seq<Message>, n: nat)
      requires Valid() && AllFit(ms) && n < |EncodeAll(ms)| && stream == EncodeAll(ms)[..n]
      requires forall m :: m in ms ==> |Encode(m)| < MAX_DATA_SIZE
      ensures unprocessed < MAX_DATA_SIZE - 1
    {
      Received(ms, n);
      var k := Completed(ms, n);
      if k < |ms| {
        assert ms[k] in ms;
      }
    }

    /** Once four bytes are buffered, the scan finds the delimiter at offset 0. */
    lemma ChunkStarts(ms: seq<Message>, n: nat, chunk: seq<Byte>)
      requires Valid() && AllFit(ms) && n + |chunk| <= |EncodeAll(ms)|
      requires stream == EncodeAll(ms)[..n] && chunk == EncodeAll(ms)[n..n + |chunk|]
      requires unprocessed + |chunk| >= 4
      ensures AtDelimiter(Tail(stream) + chunk)
    {
      PrefixComesOut(ms, n);
      var k, tail := Completed(ms, n), Tail(stream);
      EncodeSplit(ms, k);
      var done, rest := EncodeAll(ms[..k]), EncodeAll(ms[k..]);
      NextBytes(EncodeAll(ms), done, rest, n, tail, chunk);
      if k < |ms| {
        assert rest == Encode(ms[k]) + EncodeAll(ms[k..][1..]);
        UnfinishedStart(ms[k], tail, chunk);
      }
    }
  }

  lemma NextBytes(s: seq<Byte>, done: seq<Byte>, rest: seq<Byte>, n: nat, tail: seq<Byte>, chunk: seq<Byte>)
    requires s == done + rest && n + |chunk| <= |s| && s[..n] == done + tail && chunk == s[n..n + |chunk|]
    ensures |tail| + |chunk| <= |rest| && tail + chunk == rest[..|tail| + |chunk|]
  {
    assert s[..n + |chunk|] == done + (tail + chunk);
    assert s[..n + |chunk|][|done|..] == tail + chunk;
  }

  // -------------------------------------------------------------------------------------------
  // Where the scan ends
  // -------------------------------------------------------------------------------------------

  function DelimiterBytes(): (d: seq<Byte>)
    ensures |d| == 4
  {
    LittleEndian(DELIM, 4)
  }

  /** The buffer with new bytes put in. */
  function Filled(b: seq<Byte>, at: nat, chunk: seq<Byte>): (r: seq<Byte>)
    requires at + |chunk| <= |b|
    ensures |r| == |b|
  {
    b[..at] + chunk + b[at + |chunk|..]
  }

  /** As far as it goes, `s` starts with a delimiter. */
  predicate Starts(s: seq<Byte>) {
    var k := if |s| < 4 then |s| else 4;
    s[..k] == DelimiterBytes()[..k]
  }

  lemma DelimiterNumber()
    ensures Number(DelimiterBytes()) == DELIM
  {
    Widths();
    NumberOfLittleEndian(DELIM, 4);
  }

  lemma DelimiterFirst(b: seq<Byte>)
    requires |b| >= 4 && b[..4] == DelimiterBytes()
    ensures HasDelimiter(b)
  {
    DelimiterNumber();
    assert b[0..4] == b[..4];
    assert DelimiterAt(b, 0);
  }

  lemma TopByte(s: seq<Byte>)
    requires |s| == 4 && s[3] == 0
    ensures Number(s) < 0x100_0000
  {
    var a, b, c := s[1..], s[1..][1..], s[1..][1..][1..];
    assert c == [s[3]] && c[1..] == [];
    assert Number(c) == 0 && Number(b) == s[2] as nat + 256 * Number(c) && Number(a) == s[1] as nat + 256 * Number(b);
  }

  /** One to three bytes in a buffer of zeros: no offset shows the four nonzero bytes of a delimiter. */
  lemma NoDelimiter(b: seq<Byte>)
    requires forall i :: 3 <= i < |b| ==> b[i] == 0
    ensures !HasDelimiter(b)
  {
    forall i: nat | i + 4 <= |b| ensures !DelimiterAt(b, i) {
      assert b[i..i + 4][3] == 0;
      TopByte(b[i..i + 4]);
    }
  }

  /** A first piece of one to three bytes of any message makes the scan leave a buffer of zeros. */
  lemma ShortPieceLost(m: Message, zeros: seq<Byte>, n: nat)
    requires 0 < n < 4 && n <= |zeros| && forall i :: 0 <= i < |zeros| ==> zeros[i] == 0
    ensures n <= |Encode(m)| && !HasDelimiter(Filled(zeros, 0, Encode(m)[..n]))
  {
    NoDelimiter(Filled(zeros, 0, Encode(m)[..n]));
  }

  lemma EncodedStarts(m: Message)
    ensures Encode(m)[..4] == DelimiterBytes()
  {
    assert Header(m)[..4] == LittleEndian(DELIM, 4);
    assert Encode(m)[..4] == Header(m)[..4];
  }

  lemma PrefixStarts(m: Message, s: seq<Byte>)
    requires var k := if |s| < 4 then |s| else 4; s[..k] == Encode(m)[..k]
    ensures Starts(s)
  {
    var k := if |s| < 4 then |s| else 4;
    EncodedStarts(m);
    assert Encode(m)[..k] == Encode(m)[..4][..k];
  }

  lemma FirstStarts(m: Message, more: seq<Byte>, n: nat)
    requires n <= |Encode(m) + more|
    ensures Starts((Encode(m) + more)[..n])
  {
    var s := (Encode(m) + more)[..n];
    var k := if |s| < 4 then |s| else 4;
    assert s[..k] == (Encode(m) + more)[..k] == Encode(m)[..k];
    PrefixStarts(m, s);
  }

  /** What is left of a prefix of the sent bytes starts with a delimiter. */
  lemma TailStarts(ms: seq<Message>, n: nat)
    requires AllFit(ms) && n <= |EncodeAll(ms)|
    ensures Starts(Tail(EncodeAll(ms)[..n]))
  {
    PrefixComesOut(ms, n);
    var tail, k := Tail(EncodeAll(ms)[..n]), Completed(ms, n);
    if k < |ms| {
      var j := if |tail| < 4 then |tail| else 4;
      assert tail[..j] == Encode(ms[k])[..|tail|][..j];
      PrefixStarts(ms[k], tail);
    }
  }

  /** So does what is left together with the next piece. */
  lemma PieceStarts(ms: seq<Message>, n: nat, chunk: seq<Byte>)
    requires AllFit(ms) && n + |chunk| <= |EncodeAll(ms)| && chunk == EncodeAll(ms)[n..n + |chunk|]
    ensures Starts(Tail(EncodeAll(ms)[..n]) + chunk)
  {
    PrefixComesOut(ms, n);
    var k, tail := Completed(ms, n), Tail(EncodeAll(ms)[..n]);
    EncodeSplit(ms, k);
    var rest := EncodeAll(ms[k..]);
    NextBytes(EncodeAll(ms), EncodeAll(ms[..k]), rest, n, tail, chunk);
    if k < |ms| {
      assert rest == Encode(ms[k]) + EncodeAll(ms[k..][1..]);
      FirstStarts(ms[k], EncodeAll(ms[k..][1..]), |tail + chunk|);
    }
  }

  /** Writing such bytes over the start of a primed buffer keeps it primed. */
  lemma StaysPrimed(b: seq<Byte>, b': seq<Byte>, s: seq<Byte>)
    requires |b| == |b'| >= 4 && |s| <= |b| && Starts(s) && b'[..|s|] == s
    requires b[..4] == DelimiterBytes() && b'[|s|..] == b[|s|..]
    ensures b'[..4] == DelimiterBytes()
  {
    var k := if |s| < 4 then |s| else 4;
    forall i | 0 <= i < 4 ensures b'[i] == DelimiterBytes()[i] {
      if i < k {
        assert b'[i] == b'[..|s|][i] == s[..k][i];
      } else {
        assert b'[i] == b'[|s|..][i - |s|] == b[i] == b[..4][i];
      }
    }
  }

  lemma NextPrimed(ms: seq<Message>, n: nat, chunk: seq<Byte>, filled: seq<Byte>, after: seq<Byte>)
    requires AllFit(ms) && n + |chunk| <= |EncodeAll(ms)| && chunk == EncodeAll(ms)[n..n + |chunk|]
    requires var tail := Tail(EncodeAll(ms)[..n] + chunk);
             && |filled| == |after| >= 4 && |tail| <= |after| && filled[..4] == DelimiterBytes()
             && after[..|tail|] == tail && after[|tail|..] == filled[|tail|..]
    ensures after[..4] == DelimiterBytes()
  {
    NextPart(EncodeAll(ms), n, |chunk|);
    TailStarts(ms, n + |chunk|);
    StaysPrimed(filled, after, Tail(EncodeAll(ms)[..n] + chunk));
  }

  lemma FilledPrimed(b: seq<Byte>, at: nat, tail: seq<Byte>, chunk: seq<Byte>)
    requires at + |chunk| <= |b| && |b| >= 4 && b[..4] == DelimiterBytes()
    requires at == |tail| && b[..at] == tail && Starts(tail + chunk)
    ensures Filled(b, at, chunk)[..4] == DelimiterBytes() && HasDelimiter(Filled(b, at, chunk))
  {
    var filled := Filled(b, at, chunk);
    assert filled[..|tail + chunk|] == tail + chunk;
    assert filled[|tail + chunk|..] == b[|tail + chunk|..];
    StaysPrimed(b, filled, tail + chunk);
    DelimiterFirst(filled);
  }

  lemma NextPart(s: seq<Byte>, i: nat, n: nat)
    requires i + n <= |s|
    ensures s[..i + n] == s[..i] + s[i..i + n]
  {
  }

  lemma {:induction false} CompletedAll(ms: seq<Message>)
    ensures Completed(ms, |EncodeAll(ms)|) == |ms|
  {
    if ms != [] {
      CompletedAll(ms[1..]);
    }
  }

  lemma {:induction false} EncodeSplit(ms: seq<Message>, k: nat)
    requires k <= |ms|
    ensures EncodeAll(ms) == EncodeAll(ms[..k]) + EncodeAll(ms[k..])
  {
    if k > 0 {
      EncodeSplit(ms[1..], k - 1);
      assert ms[..k][1..] == ms[1..][..k - 1];
      assert ms[1..][k - 1..] == ms[k..];
      assert EncodeAll(ms[..k]) == Encode(ms[0]) + EncodeAll(ms[1..][..k - 1]);
      Associates(Encode(ms[0]), EncodeAll(ms[1..][..k - 1]), EncodeAll(ms[k..]));
    } else {
      assert ms[..0] == [] && ms[0..] == ms;
    }
  }
}
