/** The batcher that stores crawled pages: a buffer that is flushed when it holds BATCH_SIZE
    documents and at every tick, and whose backing array is used again after each flush. */
module Batcher {
  import opened Models

  const BATCH_SIZE := 100

  datatype Input = Tick | Message(body: Body)

  /** What the batcher holds and what it has tried to insert so far. */
  datatype Store = Store(buffer: seq<UrlData>, batches: seq<seq<UrlData>>)

  /** Documents are stored without their links. */
  function Stripped(docs: seq<UrlData>): (r: seq<UrlData>)
    ensures |r| == |docs|
    ensures forall i | 0 <= i < |docs| :: r[i] == docs[i].(nextUrls := [])
  {
    seq(|docs|, i requires 0 <= i < |docs| => docs[i].(nextUrls := []))
  }

  function Flush(s: Store): Store {
    Store([], s.batches + [Stripped(s.buffer)])
  }

  function Handle(s: Store, input: Input): Store {
    match input
    case Tick => if s.buffer == [] then s else Flush(s)
    case Message(Malformed) => s
    case Message(Json(doc)) =>
      var s' := s.(buffer := s.buffer + [doc]);
      if |s'.buffer| >= BATCH_SIZE then Flush(s') else s'
  }

  function HandleAll(inputs: seq<Input>): Store {
    if inputs == [] then Store([], []) else Handle(HandleAll(inputs[..|inputs| - 1]), inputs[|inputs| - 1])
  }

  /** The documents among the inputs. */
  function Documents(inputs: seq<Input>): seq<UrlData> {
    if inputs == [] then []
    else
      var before, input := Documents(inputs[..|inputs| - 1]), inputs[|inputs| - 1];
      if input.Message? && input.body.Json? then before + [input.body.data] else before
  }

  function Ticks(inputs: seq<Input>): nat {
    if inputs == [] then 0
    else Ticks(inputs[..|inputs| - 1]) + if inputs[|inputs| - 1].Tick? then 1 else 0
  }

  function Concat(batches: seq<seq<UrlData>>): seq<UrlData> {
    if batches == [] then [] else Concat(batches[..|batches| - 1]) + batches[|batches| - 1]
  }

  lemma ConcatMore(batches: seq<seq<UrlData>>, batch: seq<UrlData>)
    ensures Concat(batches + [batch]) == Concat(batches) + batch
  {
    assert (batches + [batch])[..|batches|] == batches;
  }

  lemma StrippedMore(docs: seq<UrlData>, doc: UrlData)
    ensures Stripped(docs + [doc]) == Stripped(docs) + Stripped([doc])
  {
  }

  /** What was handed over and what is still held, in order. */
  function Whole(s: Store): seq<UrlData> {
    Concat(s.batches) + Stripped(s.buffer)
  }

  lemma FlushLosesNothing(s: Store)
    ensures Whole(Flush(s)) == Whole(s)
  {
    ConcatMore(s.batches, Stripped(s.buffer));
    assert Stripped([]) == [];
  }

  lemma {:induction false} BufferBelowSize(inputs: seq<Input>)
    ensures |HandleAll(inputs).buffer| <= 99
  {
    if inputs != [] {
      BufferBelowSize(inputs[..|inputs| - 1]);
    }
  }

  /** Nothing is lost, repeated or reordered: the batches one after the other, and then what is
      still buffered, are the well-formed documents received, without their links. */
  lemma {:induction false} NothingLost(inputs: seq<Input>)
    ensures Whole(HandleAll(inputs)) == Stripped(Documents(inputs))
  {
    if inputs != [] {
      var before, input := inputs[..|inputs| - 1], inputs[|inputs| - 1];
      var s, s' := HandleAll(before), HandleAll(inputs);
      NothingLost(before);
      if input.Message? && input.body.Json? {
        var doc := input.body.data;
        StrippedMore(s.buffer, doc);
        StrippedMore(Documents(before), doc);
        FlushLosesNothing(s.(buffer := s.buffer + [doc]));
      } else {
        FlushLosesNothing(s);
      }
    }
  }

  /** A buffer that reaches 100 documents is flushed at once with exactly these, a tick flushes a
      partial one; nothing else is ever flushed, and never an empty batch. */
  lemma FlushSizes(inputs: seq<Input>, input: Input)
    ensures var s, s' := HandleAll(inputs), HandleAll(inputs + [input]);
      if (input.Tick? && s.buffer != []) || (input.Message? && input.body.Json? && |s.buffer| == 99) then
        && |s'.batches| == |s.batches| + 1 && s'.batches[..|s.batches|] == s.batches && s'.buffer == []
        && var size := |s'.batches[|s.batches|]|;
        if input.Tick? then 1 <= size <= 99 else size == 100
      else
        s'.batches == s.batches
  {
    BufferBelowSize(inputs);
    assert (inputs + [input])[..|inputs|] == inputs;
  }

  /** Batching pays: all batches but those forced by ticks are full. */
  lemma {:induction false} FewInserts(inputs: seq<Input>)
    ensures var s := HandleAll(inputs);
      100 * |s.batches| + |s.buffer| <= |Documents(inputs)| + 99 * Ticks(inputs)
  {
    if inputs != [] {
      var before := inputs[..|inputs| - 1];
      FewInserts(before);
      BufferBelowSize(before);
    }
  }

  // ---- The program text

  class Batcher {
    // The slice `data`: the first `size` elements of a backing array
    var data: array<UrlData>
    var size: nat
    // Every input so far, and every batch handed to the database
    ghost var inputs: seq<Input>
    ghost var handed: seq<array<UrlData>>

    ghost predicate Valid()
      reads this, data, handed
    {
      && size <= data.Length
      && data !in handed
      && Contents() == HandleAll(inputs)
    }

    /** What is buffered, and what the batches handed over hold now. */
    ghost function Contents(): Store
      reads this, data, handed
      requires size <= data.Length
    {
      Store(data[..size], seq(|handed|, i requires 0 <= i < |handed| reads this, handed => handed[i][..]))
    }

    constructor ()
      ensures Valid() && fresh(data) && inputs == [] && handed == []
    {
      data, size := new UrlData[0], 0;
      inputs, handed := [], [];
    }

    /** Appends in place if there is room, and otherwise moves to a larger array, by as much more
        as the runtime likes. */
    method Append(doc: UrlData, slack: nat)
      requires size <= data.Length && data !in handed
      modifies this`data, this`size, data
      ensures size == old(size) + 1 <= data.Length && data !in handed
      ensures data == old(data) || fresh(data)
      ensures data[..size] == old(data[..size]) + [doc]
      ensures forall b <- handed :: b[..] == old(b[..])
    {
      if size == data.Length {
        var bigger := new UrlData[size + 1 + slack](_ => doc);
        forall i | 0 <= i < size {
          bigger[i] := data[i];
        }
        data := bigger;
      }
      data[size] := doc;
      size := size + 1;
    }

    /** Copies the buffered documents, without their links, and empties the buffer; the backing
        array stays. */
    method Take() returns (documents: array<UrlData>)
      requires size <= data.Length
      modifies this`size
      ensures fresh(documents) && documents[..] == Stripped(old(data[..size])) && size == 0
    {
      documents := new UrlData[size](_ => UrlData("", 0, []));
      var i := 0;
      while i < size
        invariant 0 <= i <= size && fresh(documents) && documents.Length == size
        invariant data[..size] == old(data[..size])
        invariant forall j | 0 <= j < i :: documents[j] == data[j].(nextUrls := [])
      {
        documents[i] := data[i].(nextUrls := []);
        i := i + 1;
      }
      size := 0;
    }

    /** Hands the buffer over to the database.  An error of the insertion is only logged. */
    method FlushBuffer() returns (documents: array<UrlData>)
      requires size <= data.Length && data !in handed
      modifies this`size, this`handed
      ensures size == 0 && data !in handed
      ensures fresh(documents) && handed == old(handed) + [documents]
      ensures Contents() == Flush(old(Contents()))
    {
      ghost var before := Contents();
      documents := Take();
      handed := handed + [documents];
      assert Contents().batches == before.batches + [documents[..]];
    }

    /** The ticker fires: whatever is buffered is inserted. */
    method OnTick() returns (documents: Option<array<UrlData>>)
      requires Valid()
      modifies this`size, this`handed, this`inputs
      ensures Valid() && inputs == old(inputs) + [Tick]
      ensures documents.Some? <==> old(size) > 0
      ensures documents.Some? ==> fresh(documents.value) && handed == old(handed) + [documents.value]
      ensures documents.None? ==> handed == old(handed)
    {
      documents := None;
      if size > 0 {
        var batch := FlushBuffer();
        documents := Some(batch);
      }
      inputs := inputs + [Tick];
      assert inputs[..|inputs| - 1] == old(inputs);
    }

    /** A message arrives: it is buffered, and a full buffer is inserted.  A malformed message is
        skipped. */
    method OnMessage(body: Body, slack: nat) returns (documents: Option<array<UrlData>>)
      requires Valid()
      modifies this, data
      ensures Valid() && inputs == old(inputs) + [Message(body)]
      ensures data == old(data) || fresh(data)
      ensures documents.Some? <==> body.Json? && old(size) == 99
      ensures documents.Some? ==> fresh(documents.value) && handed == old(handed) + [documents.value]
      ensures documents.None? ==> handed == old(handed)
      ensures forall b <- old(handed) :: b[..] == old(b[..])
    {
      documents := None;
      BufferBelowSize(inputs);
      ghost var before := Contents();
      if body.Json? {
        Append(body.data, slack);
        assert Contents() == before.(buffer := before.buffer + [body.data]);
        if size >= BATCH_SIZE {
          var batch := FlushBuffer();
          documents := Some(batch);
        }
      }
      inputs := inputs + [Message(body)];
      assert inputs[..|inputs| - 1] == old(inputs);
    }

    /** The select loop, for the inputs it receives.  The backing array is reused all along, and
        still every batch handed over keeps its documents. */
    method BatchInsert(received: seq<Input>, slack: nat)
      requires Valid()
      modifies this, data
      ensures Valid() && inputs == old(inputs) + received
      ensures old(handed) <= handed
      ensures forall b <- old(handed) :: b[..] == old(b[..])
    {
      for k := 0 to |received|
        invariant Valid() && inputs == old(inputs) + received[..k]
        invariant data == old(data) || fresh(data)
        invariant old(handed) <= handed
        invariant forall b <- old(handed) :: b[..] == old(b[..])
      {
        assert received[..k + 1] == received[..k] + [received[k]];
        if received[k].Tick? {
          var documents := OnTick();
        } else {
          var documents := OnMessage(received[k].body, slack);
        }
      }
      assert received[..|received|] == received;
    }
  }
}
