// Snapshots travel in chunks. Whatever is lost, duplicated, reordered or interleaved
// with another transfer, a file that is complete is the whole dump.
module Chunks {
  import opened Types

  type Bytes = seq<bv8>

  datatype Chunk = Chunk(index: nat, offset: nat, data: Bytes, done: bool)

  // The file being received: for which snapshot, and what has arrived.
  datatype Receiving = Receiving(index: nat, data: Bytes)

  datatype Outcome = OutOfOrder | MoreToCome | Complete(index: nat, file: Bytes)

  // Offset 0 starts over; any other chunk must continue the file at hand.
  predicate InOrder(rx: Option<Receiving>, c: Chunk) {
    c.offset == 0 || (rx.Some? && rx.value.index == c.index && |rx.value.data| == c.offset)
  }

  function Receive(rx: Option<Receiving>, c: Chunk): (Option<Receiving>, Outcome) {
    if !InOrder(rx, c) then (rx, OutOfOrder)
    else
      var data := (if c.offset == 0 then [] else rx.value.data) + c.data;
      if c.done then (None, Complete(c.index, data)) else (Some(Receiving(c.index, data)), MoreToCome)
  }

  class SnapshotReceiver {
    var rx: Option<Receiving>

    constructor ()
      ensures rx == None
    {
      rx := None;
    }

    method ReceiveChunk(c: Chunk) returns (outcome: Outcome)
      modifies this
      ensures (rx, outcome) == Receive(old(rx), c)
    {
      if c.offset == 0 {
        rx := Some(Receiving(c.index, []));
      } else if rx.None? || rx.value.index != c.index || |rx.value.data| != c.offset {
        return OutOfOrder;
      }
      rx := Some(rx.value.(data := rx.value.data + c.data));
      if !c.done {
        return MoreToCome;
      }
      var file := rx.value.data;
      rx := None;
      return Complete(c.index, file);
    }
  }

  // A chunk that a sender cut out of the dump for its index; any two dumps for one
  // index have equal bytes.
  ghost predicate CutFrom(dumps: map<nat, Bytes>, c: Chunk) {
    && c.index in dumps
    && c.offset + |c.data| <= |dumps[c.index]|
    && c.data == dumps[c.index][c.offset..c.offset + |c.data|]
    && (c.done <==> c.offset + |c.data| == |dumps[c.index]|)
  }

  ghost predicate PartOfDump(dumps: map<nat, Bytes>, rx: Option<Receiving>) {
    rx.Some? ==> rx.value.index in dumps && rx.value.data <= dumps[rx.value.index]
  }

  lemma ReceiveKeepsPart(dumps: map<nat, Bytes>, rx: Option<Receiving>, c: Chunk)
    requires PartOfDump(dumps, rx) && CutFrom(dumps, c)
    ensures PartOfDump(dumps, Receive(rx, c).0)
    ensures var o := Receive(rx, c).1; o.Complete? ==> o.index in dumps && o.file == dumps[o.index]
  {
    if InOrder(rx, c) {
      var d := dumps[c.index];
      assert d[..c.offset] + d[c.offset..c.offset + |c.data|] == d[..c.offset + |c.data|];
      assert d[..|d|] == d;
    }
  }

  // What has been received after a sequence of chunks.
  function After(chunks: seq<Chunk>): Option<Receiving> {
    if chunks == [] then None else Receive(After(chunks[..|chunks| - 1]), chunks[|chunks| - 1]).0
  }

  // Whichever chunks arrive in whichever order, a completed file is the dump for its index.
  lemma {:induction false} FilesArriveWhole(dumps: map<nat, Bytes>, chunks: seq<Chunk>)
    requires forall c :: c in chunks ==> CutFrom(dumps, c)
    ensures PartOfDump(dumps, After(chunks))
    ensures forall i :: 0 <= i < |chunks| ==>
      var o := Receive(After(chunks[..i]), chunks[i]).1; o.Complete? ==> o.index in dumps && o.file == dumps[o.index]
  {
    hide Receive;
    if chunks != [] {
      var n := |chunks| - 1;
      FilesArriveWhole(dumps, chunks[..n]);
      assert chunks[n] in chunks;
      ReceiveKeepsPart(dumps, After(chunks[..n]), chunks[n]);
      forall i | 0 <= i < n
        ensures chunks[..n][..i] == chunks[..i]
      {
      }
    }
  }

  // The dump cut into pieces of a size, from an offset on.
  function Cut(index: nat, dump: Bytes, offset: nat, size: nat): seq<Chunk>
    requires size >= 1 && offset <= |dump|
    decreases |dump| - offset
  {
    var end := if offset + size <= |dump| then offset + size else |dump|;
    var c := Chunk(index, offset, dump[offset..end], end == |dump|);
    if end == |dump| then [c] else [c] + Cut(index, dump, end, size)
  }

  lemma {:induction false} CutIsCutFrom(dumps: map<nat, Bytes>, index: nat, offset: nat, size: nat)
    requires size >= 1 && index in dumps && offset <= |dumps[index]|
    ensures forall c :: c in Cut(index, dumps[index], offset, size) ==> CutFrom(dumps, c)
    decreases |dumps[index]| - offset
  {
    var dump := dumps[index];
    var end := if offset + size <= |dump| then offset + size else |dump|;
    if end < |dump| {
      CutIsCutFrom(dumps, index, end, size);
    }
  }

  // The outcomes of a sequence of chunks, from some state on.
  function Outcomes(rx: Option<Receiving>, chunks: seq<Chunk>): seq<Outcome>
    decreases |chunks|
  {
    if chunks == [] then []
    else
      var (next, o) := Receive(rx, chunks[0]);
      [o] + Outcomes(next, chunks[1..])
  }

  // An undisturbed transfer completes with the whole dump, whatever was there before.
  lemma {:induction false} TransferCompletes(rx: Option<Receiving>, index: nat, dump: Bytes, offset: nat, size: nat)
    requires size >= 1 && offset <= |dump| && (offset > 0 ==> rx == Some(Receiving(index, dump[..offset])))
    ensures var os := Outcomes(rx, Cut(index, dump, offset, size));
      os != [] && os[|os| - 1] == Complete(index, dump) && forall i :: 0 <= i < |os| - 1 ==> os[i] == MoreToCome
    decreases |dump| - offset
  {
    var end := if offset + size <= |dump| then offset + size else |dump|;
    var c := Chunk(index, offset, dump[offset..end], end == |dump|);
    assert dump[..offset] + dump[offset..end] == dump[..end];
    assert dump[..|dump|] == dump;
    var chunks := Cut(index, dump, offset, size);
    var next := Receive(rx, c).0;
    if end < |dump| {
      var rest := Cut(index, dump, end, size);
      assert chunks[1..] == rest;
      TransferCompletes(next, index, dump, end, size);
      var os := Outcomes(next, rest);
      assert Outcomes(rx, chunks) == [MoreToCome] + os;
    } else {
      assert chunks[1..] == [];
    }
  }
}
