/** The incremental line framer, against a batch split of the whole stream
    (packages/cli/src/deviceSigningMaintenanceController.ts:36-57). Decoding and validating one line is a
    parameter. */
module LineFramer {
  import opened Outcomes

  type Byte = x: int | 0 <= x < 256

  const LF: Byte := 10
  const CHUNK_LIMIT := 8192
  const LINE_LIMIT := 512
  const COUNT_LIMIT := 64

  /** The messages before the end, and whether the end was a clean one. */
  datatype Outcome<M> = Outcome(messages: seq<M>, ok: bool)

  /** The place of the first line feed, or the length. */
  function FirstLf(bytes: seq<Byte>): (end: nat)
    ensures end <= |bytes|
    ensures end < |bytes| ==> bytes[end] == LF
    ensures LF !in bytes[..end]
  {
    if bytes == [] || bytes[0] == LF then 0 else
      var end := 1 + FirstLf(bytes[1..]);
      assert bytes[..end] == [bytes[0]] + bytes[1..][..end - 1];
      end
  }

  function Join(chunks: seq<seq<Byte>>): seq<Byte> {
    if chunks == [] then [] else chunks[0] + Join(chunks[1..])
  }

  function After<M>(first: seq<M>, rest: Outcome<M>): Outcome<M> {
    Outcome(first + rest.messages, rest.ok)
  }

  /** The whole stream at once: split on line feeds, skip empty lines, and stop at the first line that is too
      long, one too many, not a message, or not finished. */
  function Batch<M>(bytes: seq<Byte>, count: nat, decode: seq<Byte> -> Option<M>): Outcome<M>
    decreases |bytes|
  {
    var end := FirstLf(bytes);
    if end == |bytes| then Outcome([], bytes == [])
    else if end == 0 then Batch(bytes[1..], count, decode)
    else
      var line := bytes[..end];
      if |line| > LINE_LIMIT || count + 1 > COUNT_LIMIT || decode(line).None? then Outcome([], false)
      else After([decode(line).value], Batch(bytes[end + 1..], count + 1, decode))
  }

  /** What follows the last line feed. */
  function Rest(bytes: seq<Byte>): seq<Byte>
    decreases |bytes|
  {
    var end := FirstLf(bytes);
    if end == |bytes| then bytes else Rest(bytes[end + 1..])
  }

  lemma {:induction false} RestJoins(held: seq<Byte>, more: seq<Byte>)
    ensures Rest(held + more) == Rest(Rest(held) + more)
    decreases |held|
  {
    var end := FirstLf(held);
    if end < |held| {
      assert (held + more)[..end] == held[..end];
      FirstLfIsUnique(held + more, end);
      assert (held + more)[end + 1..] == held[end + 1..] + more;
      RestJoins(held[end + 1..], more);
    }
  }

  lemma {:induction false} RestHasNoLf(bytes: seq<Byte>)
    ensures LF !in Rest(bytes)
    decreases |bytes|
  {
    var end := FirstLf(bytes);
    if end < |bytes| {
      RestHasNoLf(bytes[end + 1..]);
    } else {
      assert bytes == bytes[..end];
    }
  }

  /** The first chunk that is too large to be taken, or the number of chunks. */
  function Usable(chunks: seq<seq<Byte>>): (k: nat)
    ensures k <= |chunks| && (forall i :: 0 <= i < k ==> |chunks[i]| <= 8192)
    ensures k < |chunks| ==> |chunks[k]| > 8192
  {
    if chunks == [] || |chunks[0]| > CHUNK_LIMIT then 0 else 1 + Usable(chunks[1..])
  }

  // ---------------------------------------------------------------- what a prefix already decides

  lemma {:induction false} FirstLfIsUnique(bytes: seq<Byte>, end: nat)
    requires end <= |bytes| && LF !in bytes[..end] && (end < |bytes| ==> bytes[end] == LF)
    ensures FirstLf(bytes) == end
  {
    var first := FirstLf(bytes);
    forall k | 0 <= k < end ensures bytes[k] != LF {
      assert bytes[..end][k] == bytes[k];
    }
    forall k | 0 <= k < first ensures bytes[k] != LF {
      assert bytes[..first][k] == bytes[k];
    }
  }

  /** A complete line at the front is the batch's first line, whatever follows. */
  lemma LineComesFirst<M>(held: seq<Byte>, rest: seq<Byte>, count: nat, decode: seq<Byte> -> Option<M>)
    requires FirstLf(held) < |held|
    ensures
      var end := FirstLf(held);
      var line, left := held[..end], held[end + 1..];
      Batch(held + rest, count, decode) ==
        if line == [] then Batch(left + rest, count, decode)
        else if |line| > LINE_LIMIT || count + 1 > COUNT_LIMIT || decode(line).None? then Outcome([], false)
        else After([decode(line).value], Batch(left + rest, count + 1, decode))
  {
    var end := FirstLf(held);
    assert (held + rest)[..end] == held[..end];
    FirstLfIsUnique(held + rest, end);
    assert (held + rest)[end + 1..] == held[end + 1..] + rest;
  }

  /** More than a line's worth without a line feed can never become a message. */
  lemma TooLongEndsBadly<M>(held: seq<Byte>, rest: seq<Byte>, count: nat, decode: seq<Byte> -> Option<M>)
    requires LF !in held && |held| > LINE_LIMIT
    ensures Batch(held + rest, count, decode) == Outcome([], false)
  {
    var all := held + rest;
    forall k | 0 <= k < |held| ensures all[k] != LF {
      assert all[k] == held[k];
    }
  }

  lemma JoinNext(chunks: seq<seq<Byte>>, i: nat, held: seq<Byte>)
    requires i < |chunks|
    ensures held + Join(chunks[i..]) == (held + chunks[i]) + Join(chunks[i + 1..])
  {
    assert chunks[i..][1..] == chunks[i + 1..];
  }

  lemma AfterJoins<M>(a: seq<M>, m: M, rest: Outcome<M>)
    ensures After(a, After([m], rest)) == After(a + [m], rest)
  {
    assert a + ([m] + rest.messages) == (a + [m]) + rest.messages;
  }

  // ---------------------------------------------------------------- the framer

  /** The complete lines of the buffer; what is left holds no line feed. */
  method TakeLines<M>(buffered: seq<Byte>, soFar: seq<M>, counted: nat, ghost rest: seq<Byte>,
                      decode: seq<Byte> -> Option<M>)
    returns (ok: bool, left: seq<Byte>, messages: seq<M>, count: nat)
    ensures
      After(soFar, Batch(buffered + rest, counted, decode)) ==
        if ok then After(messages, Batch(left + rest, count, decode)) else Outcome(messages, false)
    ensures ok ==> LF !in left && left == Rest(buffered)
  {
    left, messages, count := buffered, soFar, counted;
    var end := FirstLf(left);
    while end < |left|
      invariant end == FirstLf(left) && Rest(left) == Rest(buffered)
      invariant After(soFar, Batch(buffered + rest, counted, decode))
        == After(messages, Batch(left + rest, count, decode))
      decreases |left|
    {
      LineComesFirst(left, rest, count, decode);
      var line := left[..end];
      left := left[end + 1..];
      if line != [] {
        count := count + 1;
        if |line| > LINE_LIMIT || count > COUNT_LIMIT {
          return false, left, messages, count;
        }
        var value := decode(line);
        if value.None? {
          return false, left, messages, count;
        }
        AfterJoins(messages, value.value, Batch(left + rest, count, decode));
        messages := messages + [value.value];
      }
      end := FirstLf(left);
    }
    assert left == left[..end];
    ok := true;
  }

  /** One chunk: its complete lines are taken, and a remainder that is too long for a line is refused at once. */
  method TakeChunk<M>(buffered: seq<Byte>, soFar: seq<M>, counted: nat, ghost rest: seq<Byte>,
                      decode: seq<Byte> -> Option<M>)
    returns (ok: bool, left: seq<Byte>, messages: seq<M>, count: nat)
    ensures
      After(soFar, Batch(buffered + rest, counted, decode)) ==
        if ok then After(messages, Batch(left + rest, count, decode)) else Outcome(messages, false)
    ensures ok ==> LF !in left && left == Rest(buffered) && |left| <= LINE_LIMIT
  {
    hide Batch, Rest;
    ok, left, messages, count := TakeLines(buffered, soFar, counted, rest, decode);
    if ok && |left| > LINE_LIMIT {
      TooLongEndsBadly(left, rest, count, decode);
      ok := false;
    }
  }

  lemma JoinLast(chunks: seq<seq<Byte>>, i: nat)
    requires i < |chunks|
    ensures Join(chunks[..i + 1]) == Join(chunks[..i]) + chunks[i]
  {
    JoinBoth(chunks[..i], [chunks[i]]);
    assert chunks[..i + 1] == chunks[..i] + [chunks[i]];
    var one := [chunks[i]];
    assert one[1..] == [] && Join(one) == chunks[i] + [];
  }

  lemma {:induction false} JoinBoth(a: seq<seq<Byte>>, b: seq<seq<Byte>>)
    ensures Join(a + b) == Join(a) + Join(b)
  {
    if a == [] {
      assert a + b == b;
    } else {
      assert (a + b)[1..] == a[1..] + b;
      JoinBoth(a[1..], b);
    }
  }

  /** A stream that ends in an unfinished line ends badly; one that ends on a line feed ends well. */
  lemma StreamEnds<M>(held: seq<Byte>, count: nat, decode: seq<Byte> -> Option<M>)
    requires LF !in held
    ensures Batch(held + Join([]), count, decode) == Outcome([], held == [])
  {
    assert held + Join([]) == held;
    FirstLfIsUnique(held, |held|);
  }

  /** What was carried over after each chunk is the unfinished line of the stream so far. */
  ghost predicate CarriesRests(carried: seq<seq<Byte>>, chunks: seq<seq<Byte>>) {
    && |carried| <= |chunks|
    && forall i :: 0 <= i < |carried| ==> carried[i] == Rest(Join(chunks[..i + 1])) && |carried[i]| <= 512
  }

  lemma CarriesOne(carried: seq<seq<Byte>>, chunks: seq<seq<Byte>>, buffered: seq<Byte>, left: seq<Byte>)
    requires CarriesRests(carried, chunks) && |carried| < |chunks| && |left| <= 512
    requires buffered == Rest(Join(chunks[..|carried|])) && left == Rest(buffered + chunks[|carried|])
    ensures CarriesRests(carried + [left], chunks) && left == Rest(Join(chunks[..|carried| + 1]))
  {
    JoinLast(chunks, |carried|);
    RestJoins(Join(chunks[..|carried|]), chunks[|carried|]);
    hide Rest, Join;
  }

  lemma CarriesNothing(chunks: seq<seq<Byte>>)
    ensures CarriesRests([], chunks) && Rest(Join(chunks[..0])) == []
  {
  }

  /** Reads chunk by chunk, up to the first chunk that is too large. Two splits of one stream give the same result,
      because whatever the chunks, the messages and the end are those of the whole stream; a chunk that is too large
      ends it badly after the messages before it. What is carried from chunk to chunk is the unfinished line, and never
      more than a line may hold. */
  method Frames<M>(chunks: seq<seq<Byte>>, decode: seq<Byte> -> Option<M>)
    returns (messages: seq<M>, ok: bool, ghost carried: seq<seq<Byte>>)
    ensures Usable(chunks) == |chunks| ==> Outcome(messages, ok) == Batch(Join(chunks), 0, decode)
    ensures Usable(chunks) < |chunks| ==>
      !ok && messages == Batch(Join(chunks[..Usable(chunks)]), 0, decode).messages
    ensures CarriesRests(carried, chunks) && (ok ==> |carried| == |chunks|)
  {
    var buffered: seq<Byte>, count, i := [], 0, 0;
    messages, carried := [], [];
    ghost var taken := chunks[..Usable(chunks)];
    ghost var whole := Batch(Join(taken), 0, decode);
    assert taken[0..] == taken && [] + Join(taken) == Join(taken);
    assert Usable(chunks) == |chunks| ==> taken == chunks;
    CarriesNothing(chunks);
    hide Batch, Rest, Join, FirstLf, Usable, CarriesRests;
    while i < |chunks|
      invariant i <= |taken| && |buffered| <= LINE_LIMIT && LF !in buffered
      invariant whole == After(messages, Batch(buffered + Join(taken[i..]), count, decode))
      invariant |carried| == i && buffered == Rest(Join(chunks[..i])) && CarriesRests(carried, chunks)
    {
      if |chunks[i]| > CHUNK_LIMIT {
        assert taken[i..] == [];
        StreamEnds(buffered, count, decode);
        return messages, false, carried;
      }
      JoinNext(taken, i, buffered);
      ghost var held, rest := buffered, Join(taken[i + 1..]);
      var fine;
      fine, buffered, messages, count := TakeChunk(buffered + chunks[i], messages, count, rest, decode);
      if !fine {
        return messages, false, carried;
      }
      CarriesOne(carried, chunks, held, buffered);
      carried := carried + [buffered];
      i := i + 1;
    }
    assert taken[i..] == [];
    StreamEnds(buffered, count, decode);
    ok := buffered == [];
  }
}
