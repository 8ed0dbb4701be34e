/**
 The Python client: `TCPMessage.__bytes__`, `parse_from_bytes` and the buffer of its receive loop.
 */
module PythonMessages {
  import opened Wire
  import opened Framing

  const UNIT_TYPES: nat := 7
  const PACKAGE_TYPES: nat := 14

  /** A message that `TCPMessage` can hold and write: enum members, a 32-bit size, 64-bit ids. */
  predicate Writable(m: Message) {
    m.unitType < UNIT_TYPES && m.packageType < PACKAGE_TYPES && Fits(m)
  }

  predicate AllWritable(ms: seq<Message>) {
    forall i :: 0 <= i < |ms| ==> Writable(ms[i])
  }

  datatype Parsed = Complete(message: Message) | Incomplete

  /** Python slicing: bounds past the end are cut off. */
  function Slice(s: seq<Byte>, i: nat, j: nat): seq<Byte>
    requires i <= j
  {
    if j <= |s| then s[i..j] else if i <= |s| then s[i..] else []
  }

  function IntAt(s: seq<Byte>, i: nat, j: nat): nat
    requires i <= j
  {
    Number(Slice(s, i, j))
  }

  /** A `ValueError`: a wrong delimiter or an enum value without a member. */
  predicate Raises(s: seq<Byte>) {
    IntAt(s, 0, 4) != DELIM || IntAt(s, 4, 8) >= UNIT_TYPES || IntAt(s, 12, 16) >= PACKAGE_TYPES
  }

  /** What the generator yields, and whether it ends in a `ValueError`. */
  function Parse(s: seq<Byte>): (seq<Parsed>, bool)
    decreases |s|
  {
    if s == [] then ([], false)
    else if Raises(s) then ([], true)
    else
      var end := 32 + IntAt(s, 8, 12);
      if end <= |s| then
        var m := Message(IntAt(s, 4, 8), IntAt(s, 12, 16), IntAt(s, 16, 24), IntAt(s, 24, 32), s[32..end]);
        var (rest, raised) := Parse(s[end..]);
        ([Complete(m)] + rest, raised)
      else ([Incomplete], false)
  }

  /** The bytes before `pos` have been parsed; past the end there is nothing more to parse. */
  predicate ParsedUpTo(data: seq<Byte>, pos: nat, items: seq<Parsed>) {
    Parse(data) == if pos <= |data| then (items + Parse(data[pos..]).0, Parse(data[pos..]).1) else (items, false)
  }

  method ParseFromBytes(data: seq<Byte>) returns (items: seq<Parsed>, raised: bool)
    ensures (items, raised) == Parse(data)
  {
    items, raised := [], false;
    var pos: nat := 0;
    StartParsing(data);
    while pos < |data|
      invariant !raised && ParsedUpTo(data, pos, items)
      decreases |data| - pos
    {
      Shifted(data, pos);
      if IntAt(data, pos, pos + 4) != DELIM || IntAt(data, pos + 4, pos + 8) >= UNIT_TYPES
         || IntAt(data, pos + 12, pos + 16) >= PACKAGE_TYPES {
        assert Raises(data[pos..]) && items + [] == items;
        raised := true;
        return;
      }
      var end := pos + 32 + IntAt(data, pos + 8, pos + 12);
      ParseOne(data, pos, end, items);
      if end <= |data| {
        items := items + [Complete(Message(IntAt(data, pos + 4, pos + 8), IntAt(data, pos + 12, pos + 16),
                                           IntAt(data, pos + 16, pos + 24), IntAt(data, pos + 24, pos + 32),
                                           data[pos + 32..end]))];
      } else {
        items := items + [Incomplete];
      }
      pos := end;
    }
    assert items + [] == items;
  }

  lemma StartParsing(data: seq<Byte>)
    ensures ParsedUpTo(data, 0, [])
  {
    assert data[0..] == data && [] + Parse(data).0 == Parse(data).0;
  }

  lemma ParseOne(data: seq<Byte>, pos: nat, end: nat, items: seq<Parsed>)
    requires ParsedUpTo(data, pos, items) && pos < |data| && !Raises(data[pos..])
    requires end == pos + 32 + IntAt(data, pos + 8, pos + 12)
    ensures end > |data| ==> ParsedUpTo(data, end, items + [Incomplete])
    ensures end <= |data| ==>
              var m := Message(IntAt(data, pos + 4, pos + 8), IntAt(data, pos + 12, pos + 16),
                               IntAt(data, pos + 16, pos + 24), IntAt(data, pos + 24, pos + 32), data[pos + 32..end]);
              ParsedUpTo(data, end, items + [Complete(m)])
  {
    Shifted(data, pos);
    var s := data[pos..];
    if end <= |data| {
      assert s[32..end - pos] == data[pos + 32..end] && s[end - pos..] == data[end..];
      var m := Message(IntAt(data, pos + 4, pos + 8), IntAt(data, pos + 12, pos + 16),
                       IntAt(data, pos + 16, pos + 24), IntAt(data, pos + 24, pos + 32), data[pos + 32..end]);
      assert items + ([Complete(m)] + Parse(data[end..]).0) == items + [Complete(m)] + Parse(data[end..]).0;
    }
  }

  lemma Shifted(data: seq<Byte>, pos: nat)
    requires pos < |data|
    ensures forall i: nat, j: nat :: i <= j ==> IntAt(data[pos..], i, j) == IntAt(data, pos + i, pos + j)
  {
    forall i: nat, j: nat | i <= j ensures Slice(data[pos..], i, j) == Slice(data, pos + i, pos + j) {}
  }

  // -------------------------------------------------------------------------------------------
  // Round trip
  // -------------------------------------------------------------------------------------------

  function Yields(ms: seq<Message>): (r: seq<Parsed>)
    ensures |r| == |ms| && forall i :: 0 <= i < |r| ==> r[i] == Complete(ms[i])
  {
    seq(|ms|, i requires 0 <= i < |ms| => Complete(ms[i]))
  }

  /** A header that starts with the encoding of `m` is read as `m`'s. */
  lemma WholeHeader(m: Message, s: seq<Byte>)
    requires Writable(m) && |s| >= 32 && s[..32] == Header(m)
    ensures !Raises(s) && IntAt(s, 8, 12) == |m.payload| && IntAt(s, 4, 8) == m.unitType
            && IntAt(s, 12, 16) == m.packageType
    ensures IntAt(s, 16, 24) == m.source && IntAt(s, 24, 32) == m.target
  {
    HeaderFields(m, s);
    assert forall i: nat, j: nat :: i <= j <= 32 ==> Slice(s, i, j) == s[i..j];
  }

  lemma {:induction false} Zeros(s: seq<Byte>)
    requires forall i :: 0 <= i < |s| ==> s[i] == 0
    ensures Number(s) == 0
  {
    if s != [] { Zeros(s[1..]); }
  }

  /** The first bytes of a small number read as that number or as nothing. */
  lemma {:induction false} CutNumber(n: nat, width: nat, k: nat)
    requires n < 256 && k <= width
    ensures Number(LittleEndian(n, width)[..k]) <= n
  {
    if k > 0 {
      var s := LittleEndian(n, width)[..k];
      assert s[1..] == LittleEndian(0, width - 1)[..k - 1];
      CutNumber(0, width - 1, k - 1);
    }
  }

  /** A cut-off message of at least four bytes is reported as incomplete. */
  lemma CutMessage(m: Message, tail: seq<Byte>)
    requires Writable(m) && Unfinished(tail, m) && |tail| >= 4
    ensures Parse(tail) == ([Incomplete], false)
  {
    if |tail| >= 32 {
      assert tail[..32] == Header(m);
      WholeHeader(m, tail);
    } else {
      CutHeader(m, tail);
    }
  }

  lemma CutField(whole: seq<Byte>, tail: seq<Byte>, i: nat, j: nat)
    requires i <= j <= |whole| && |tail| <= |whole| && tail == whole[..|tail|]
    ensures |Slice(tail, i, j)| <= j - i && Slice(tail, i, j) == whole[i..j][..|Slice(tail, i, j)|]
  {
    var s := Slice(tail, i, j);
    assert forall k :: 0 <= k < |s| ==> s[k] == tail[i + k] == whole[i + k];
    assert forall k :: 0 <= k < |s| ==> whole[i..j][..|s|][k] == whole[i + k];
  }

  lemma CutHeader(m: Message, tail: seq<Byte>)
    requires Writable(m) && 4 <= |tail| < 32 && tail == Header(m)[..|tail|]
    ensures !Raises(tail)
  {
    var h, k := Header(m), |tail|;
    Widths();
    NumberOfLittleEndian(DELIM, 4);
    assert Slice(tail, 0, 4) == h[0..4] == LittleEndian(DELIM, 4);
    var u, p := Slice(tail, 4, 8), Slice(tail, 12, 16);
    assert h[4..8] == LittleEndian(m.unitType, 4) && h[12..16] == LittleEndian(m.packageType, 4);
    CutField(h, tail, 4, 8);
    CutField(h, tail, 12, 16);
    CutNumber(m.unitType, 4, |u|);
    CutNumber(m.packageType, 4, |p|);
  }

  lemma SmallNumber(s: seq<Byte>)
    requires 0 < |s| < 4
    ensures Number(s) < 0x100_0000
  {
    assert Number(s) == s[0] as nat + 256 * Number(s[1..]);
    if |s| > 1 {
      assert Number(s[1..]) == s[1] as nat + 256 * Number(s[1..][1..]);
      if |s| > 2 {
        assert Number(s[1..][1..]) == s[2] as nat + 256 * Number(s[1..][1..][1..]);
      }
    }
  }

  /** One to three bytes of a delimiter are not a delimiter. */
  lemma CutDelimiter(m: Message, tail: seq<Byte>)
    requires Writable(m) && 0 < |tail| < 4 && tail == Header(m)[..|tail|]
    ensures Raises(tail)
  {
    var d := LittleEndian(DELIM, 4);
    assert d == [0xB1, 0x0B, 0xDB, 0x5A];
    assert tail == d[..|tail|];
    assert Slice(tail, 0, 4) == tail;
    SmallNumber(tail);
  }

  /**
   Parsing what was written gives it back, and a started message gives one incomplete marker;
   it fails exactly when one to three bytes of the next message have arrived.
   */
  lemma {:induction false} RoundTrip(ms: seq<Message>, tail: seq<Byte>, next: Message)
    requires AllWritable(ms) && Writable(next) && Unfinished(tail, next)
    ensures var (items, raised) := Parse(EncodeAll(ms) + tail);
            && items == Yields(ms) + (if |tail| < 4 then [] else [Incomplete])
            && (raised <==> 0 < |tail| < 4)
  {
    if ms == [] {
      assert EncodeAll(ms) + tail == tail && Yields(ms) == [];
      TailParses(tail, next);
    } else {
      var rest := EncodeAll(ms[1..]) + tail;
      Associates(Encode(ms[0]), EncodeAll(ms[1..]), tail);
      assert EncodeAll(ms) + tail == Encode(ms[0]) + rest;
      ParseFirst(ms[0], rest);
      RoundTrip(ms[1..], tail, next);
      assert Yields(ms) == [Complete(ms[0])] + Yields(ms[1..]);
    }
  }

  lemma TailParses(tail: seq<Byte>, next: Message)
    requires Writable(next) && Unfinished(tail, next)
    ensures Parse(tail) == (if |tail| < 4 then [] else [Incomplete], 0 < |tail| < 4)
  {
    if 0 < |tail| < 4 {
      assert tail == Header(next)[..|tail|];
      CutDelimiter(next, tail);
    } else if tail != [] {
      CutMessage(next, tail);
    }
  }

  lemma ParseFirst(m: Message, rest: seq<Byte>)
    requires Writable(m)
    ensures Parse(Encode(m) + rest) == ([Complete(m)] + Parse(rest).0, Parse(rest).1)
  {
    var s := Encode(m) + rest;
    assert s[..32] == Header(m);
    WholeHeader(m, s);
    var end := 32 + |m.payload|;
    assert s[32..end] == m.payload && s[end..] == rest;
  }

  // -------------------------------------------------------------------------------------------
  // The receive loop
  // -------------------------------------------------------------------------------------------

  class PythonClient {
    var data: seq<Byte>
    var calls: seq<Message>
    const types: set<nat>

    constructor (types: set<nat>)
      ensures data == [] && calls == [] && this.types == types
    {
      data, calls, this.types := [], [], types;
    }

    /**
     One turn of the loop, when the peer has sent `sent` and its bytes from n on arrive.  The
     buffer keeps exactly the unprocessed tail; the thread dies only on a cut delimiter.
     */
    method Receive(chunk: seq<Byte>, ghost sent: seq<Message>, ghost n: nat) returns (failed: bool)
      requires AllWritable(sent) && n + |chunk| <= |EncodeAll(sent)| && chunk == EncodeAll(sent)[n..n + |chunk|]
      requires data == Tail(EncodeAll(sent)[..n]) && calls == Handled(sent[..Completed(sent, n)], types)
      modifies this
      ensures var tail := Tail(EncodeAll(sent)[..n + |chunk|]);
              && (failed <==> 0 < |tail| < 4)
              && (!failed ==> data == tail)
              && calls == Handled(sent[..Completed(sent, n + |chunk|)], types)
    {
      data := data + chunk;
      ghost var from, to := Completed(sent, n), Completed(sent, n + |chunk|);
      Arrived(sent, n, chunk);
      assert sent[..from] + sent[from..to] == sent[..to];
      failed := Turn(sent[..from], sent[from..to], Tail(EncodeAll(sent)[..n + |chunk|]));
    }

    /** Parse the buffer, hand out what is complete and keep the rest. */
    method Turn(ghost before: seq<Message>, ghost ms: seq<Message>, ghost tail: seq<Byte>) returns (failed: bool)
      requires data == EncodeAll(ms) + tail && calls == Handled(before, types)
      requires Parse(data) == (Yields(ms) + (if |tail| < 4 then [] else [Incomplete]), 0 < |tail| < 4)
      modifies this
      ensures (failed <==> 0 < |tail| < 4) && (!failed ==> data == tail) && calls == Handled(before + ms, types)
    {
      var items, raised := ParseFromBytes(data);
      var processed := Consume(items, before, ms);
      if raised {
        return true;
      }
      data := data[processed..];
      return false;
    }

    /** Hand the complete messages to their callbacks and add up their sizes. */
    method Consume(items: seq<Parsed>, ghost before: seq<Message>, ghost ms: seq<Message>) returns (processed: nat)
      requires Yields(ms) <= items && (|items| > |ms| ==> items[|ms|].Incomplete?)
      requires calls == Handled(before, types)
      modifies this`calls
      ensures processed == |EncodeAll(ms)| && calls == Handled(before + ms, types)
    {
      processed := 0;
      var i := 0;
      assert before + ms[..0] == before;
      while i < |items| && items[i].Complete?
        invariant i <= |ms| && processed == |EncodeAll(ms[..i])| && calls == Handled(before + ms[..i], types)
      {
        var message := items[i].message;
        processed := processed + |Encode(message)|;
        if message.packageType in types {
          calls := calls + [message];
        }
        assert message == ms[i];
        ConsumeOne(before, ms, i, types);
        i := i + 1;
      }
      assert ms[..|ms|] == ms;
    }
  }

  lemma ConsumeOne(before: seq<Message>, ms: seq<Message>, i: nat, types: set<nat>)
    requires i < |ms|
    ensures EncodeAll(ms[..i + 1]) == EncodeAll(ms[..i]) + Encode(ms[i])
    ensures Handled(before + ms[..i + 1], types)
         == Handled(before + ms[..i], types) + if ms[i].packageType in types then [ms[i]] else []
  {
    assert ms[..i + 1] == ms[..i] + [ms[i]];
    EncodeAppend(ms[..i], ms[i]);
    assert (before + ms[..i + 1])[..|before| + i] == before + ms[..i];
  }

  lemma EncodeAppend(ms: seq<Message>, m: Message)
    ensures EncodeAll(ms + [m]) == EncodeAll(ms) + Encode(m)
  {
    EncodeSplit(ms + [m], |ms|);
    assert (ms + [m])[..|ms|] == ms && (ms + [m])[|ms|..] == [m];
    assert EncodeAll([m]) == Encode(m) + [];
  }

  /** Old tail and new bytes together: the newly completed messages and the new tail. */
  lemma ArrivedBytes(sent: seq<Message>, n: nat, chunk: seq<Byte>)
    requires AllWritable(sent) && n + |chunk| <= |EncodeAll(sent)| && chunk == EncodeAll(sent)[n..n + |chunk|]
    ensures var from, to := Completed(sent, n), Completed(sent, n + |chunk|);
            from <= to &&
            Tail(EncodeAll(sent)[..n]) + chunk == EncodeAll(sent[from..to]) + Tail(EncodeAll(sent)[..n + |chunk|])
  {
    var from, to := Completed(sent, n), Completed(sent, n + |chunk|);
    var before, after := EncodeAll(sent)[..n], EncodeAll(sent)[..n + |chunk|];
    TailOfPrefix(sent, n);
    TailOfPrefix(sent, n + |chunk|);
    NextPrefix(EncodeAll(sent), n, chunk);
    CompletedGrows(sent, n, n + |chunk|);
    Between(sent, from, to);
    Rearranged(EncodeAll(sent[..from]), Tail(before), chunk, EncodeAll(sent[from..to]), Tail(after), before, after);
  }

  lemma TailOfPrefix(ms: seq<Message>, n: nat)
    requires AllWritable(ms) && n <= |EncodeAll(ms)|
    ensures EncodeAll(ms)[..n] == EncodeAll(ms[..Completed(ms, n)]) + Tail(EncodeAll(ms)[..n])
  {
    PrefixComesOut(ms, n);
  }

  lemma NextPrefix(s: seq<Byte>, n: nat, chunk: seq<Byte>)
    requires n + |chunk| <= |s| && chunk == s[n..n + |chunk|]
    ensures s[..n + |chunk|] == s[..n] + chunk
  {
  }

  lemma {:induction false} CompletedGrows(ms: seq<Message>, n: nat, n': nat)
    requires n <= n'
    ensures Completed(ms, n) <= Completed(ms, n')
  {
    if ms != [] && n >= |Encode(ms[0])| {
      CompletedGrows(ms[1..], n - |Encode(ms[0])|, n' - |Encode(ms[0])|);
    }
  }

  lemma Rearranged(done: seq<Byte>, tail: seq<Byte>, chunk: seq<Byte>, new_: seq<Byte>, tail': seq<Byte>,
                   a: seq<Byte>, ab: seq<Byte>)
    requires a == done + tail && ab == a + chunk && ab == done + new_ + tail'
    ensures tail + chunk == new_ + tail'
  {
    Cancel(done, tail + chunk, new_ + tail', ab);
  }

  lemma Between(ms: seq<Message>, from: nat, to: nat)
    requires from <= to <= |ms|
    ensures EncodeAll(ms[..to]) == EncodeAll(ms[..from]) + EncodeAll(ms[from..to])
  {
    EncodeSplit(ms[..to], from);
    assert ms[..to][..from] == ms[..from] && ms[..to][from..] == ms[from..to];
  }

  lemma Arrived(sent: seq<Message>, n: nat, chunk: seq<Byte>)
    requires AllWritable(sent) && n + |chunk| <= |EncodeAll(sent)| && chunk == EncodeAll(sent)[n..n + |chunk|]
    ensures var from, to := Completed(sent, n), Completed(sent, n + |chunk|);
            var tail := Tail(EncodeAll(sent)[..n + |chunk|]);
            var s := Tail(EncodeAll(sent)[..n]) + chunk;
            && from <= to && s == EncodeAll(sent[from..to]) + tail
            && Parse(s) == (Yields(sent[from..to]) + (if |tail| < 4 then [] else [Incomplete]), 0 < |tail| < 4)
  {
    var to, tail := Completed(sent, n + |chunk|), Tail(EncodeAll(sent)[..n + |chunk|]);
    ArrivedBytes(sent, n, chunk);
    var next := TailStarts(sent, n + |chunk|);
    RoundTrip(sent[Completed(sent, n)..to], tail, next);
  }

  /** The tail of a prefix is the start of some message. */
  lemma TailStarts(sent: seq<Message>, n: nat) returns (next: Message)
    requires AllWritable(sent) && n <= |EncodeAll(sent)|
    ensures Writable(next) && Unfinished(Tail(EncodeAll(sent)[..n]), next)
  {
    PrefixComesOut(sent, n);
    var k := Completed(sent, n);
    next := if k == |sent| then Message(0, 0, 0, 0, []) else sent[k];
  }

  lemma Cancel(a: seq<Byte>, b: seq<Byte>, c: seq<Byte>, s: seq<Byte>)
    requires s == a + b && s == a + c
    ensures b == c
  {
    assert b == s[|a|..] && c == s[|a|..];
  }
}
