/** Incremental decoding and batching of one run's terminal output
    (terminal_run.py): what is cut into numbered batches is, in order and without
    loss, the decoding of everything fed. */
module OutputBatchers {
  import opened Common
  import opened Config

  /** An incremental text decoder: the bytes of an unfinished character are kept
      back, one more byte may complete text, and the end turns what is left into text. */
  datatype Codec = Codec(step: (Bytes, byte) -> (Bytes, string), atEnd: Bytes -> string)

  /** Nothing kept back is nothing to say at the end. */
  predicate Lawful(c: Codec) { c.atEnd([]) == "" }

  /** What is kept back and the text so far. */
  datatype Decoded = Decoded(kept: Bytes, text: string)

  function Decode(c: Codec, kept: Bytes, data: Bytes): Decoded
    decreases |data|
  {
    if data == [] then Decoded(kept, "")
    else
      var (next, text) := c.step(kept, data[0]);
      var rest := Decode(c, next, data[1..]);
      Decoded(rest.kept, text + rest.text)
  }

  /** Decoding chunk by chunk is decoding the chunks joined. */
  lemma {:induction false} DecodeJoins(c: Codec, kept: Bytes, a: Bytes, b: Bytes)
    ensures var first := Decode(c, kept, a);
            var second := Decode(c, first.kept, b);
            Decode(c, kept, a + b) == Decoded(second.kept, first.text + second.text)
    decreases |a|
  {
    if a == [] {
      assert a + b == b;
    } else {
      assert (a + b)[0] == a[0] && (a + b)[1..] == a[1..] + b;
      DecodeJoins(c, c.step(kept, a[0]).0, a[1..], b);
    }
  }

  /** Each byte is decoded, by the step of the codec. */
  lemma OneByteDecodes(c: Codec, kept: Bytes, b: byte)
    ensures Decode(c, kept, [b]) == Decoded(c.step(kept, b).0, c.step(kept, b).1)
    ensures Decode(c, kept, []) == Decoded(kept, "")
    ensures Whole(c, [b]) == c.step([], b).1 + c.atEnd(c.step([], b).0)
  {
    assert [b][1..] == [] && c.step(kept, b).1 + "" == c.step(kept, b).1;
    assert c.step([], b).1 + "" == c.step([], b).1;
    assert Decode(c, c.step(kept, b).0, []) == Decoded(c.step(kept, b).0, "");
    assert Decode(c, c.step([], b).0, []) == Decoded(c.step([], b).0, "");
  }

  /** All of a byte stream as text. */
  function Whole(c: Codec, data: Bytes): string {
    var d := Decode(c, [], data);
    d.text + c.atEnd(d.kept)
  }

  datatype Batch = Batch(text: string, number: nat)

  function Joined(batches: seq<Batch>): string {
    if batches == [] then "" else batches[0].text + Joined(batches[1..])
  }

  lemma {:induction false} JoinedSnoc(batches: seq<Batch>, last: Batch)
    ensures Joined(batches + [last]) == Joined(batches) + last.text
  {
    if batches == [] {
      assert [last][1..] == [];
      assert batches + [last] == [last];
    } else {
      assert (batches + [last])[0] == batches[0] && (batches + [last])[1..] == batches[1..] + [last];
      JoinedSnoc(batches[1..], last);
    }
  }

  /** Numbered from one without a gap, and none empty. */
  predicate Numbered(batches: seq<Batch>) {
    forall i :: 0 <= i < |batches| ==> batches[i].number == i + 1 && batches[i].text != ""
  }

  /** Text goes out once it is long or old enough. */
  predicate Due(text: string, started: real, now: real) {
    text != "" && (|text| >= TERM_BATCH_MAX_CHARS || now - started >= TERM_BATCH_INTERVAL)
  }

  class OutputBatcher {
    const codec: Codec
    var kept: Bytes
    var text: string
    var started: Option<real>
    var number: nat
    ghost var fed: Bytes
    ghost var sent: seq<Batch>

    ghost predicate Valid() reads this {
      && Decode(codec, [], fed) == Decoded(kept, Joined(sent) + text)
      && Numbered(sent) && number == |sent| && |text| < TERM_BATCH_MAX_CHARS
      && (text != "" <==> started.Some?)
    }

    constructor (codec: Codec)
      ensures Valid() && this.codec == codec && fed == [] && sent == []
    {
      this.codec := codec;
      kept, text, started, number := [], "", None, 0;
      fed, sent := [], [];
      new;
      assert Decode(codec, [], fed) == Decoded([], "") && Joined(sent) + text == "";
    }

    /** Decodes more bytes; `onText`, `onCheck` and `onFlush` are the clock's readings. */
    method Add(data: Bytes, onText: real, onCheck: real, onFlush: real) returns (batches: seq<Batch>)
      requires Valid()
      modifies this
      ensures Valid() && fed == old(fed) + data && sent == old(sent) + batches
      ensures var all := old(text) + Decode(codec, old(kept), data).text;
              var since := if old(text) == "" then onText else old(started).value;
              if |all| >= TERM_BATCH_MAX_CHARS || (all != "" && onCheck - since >= TERM_BATCH_INTERVAL
                                                   && onFlush - since >= TERM_BATCH_INTERVAL)
              then batches == [Batch(all, old(number) + 1)] && text == ""
              else batches == [] && text == all
    {
      hide Decode, Joined, Numbered;
      DecodeJoins(codec, [], fed, data);
      var decoded := Decode(codec, kept, data);
      kept := decoded.kept;
      if decoded.text != "" {
        if text == "" {
          started := Some(onText);
        }
        text := text + decoded.text;
      }
      assert text == old(text) + decoded.text;
      assert Joined(old(sent)) + old(text) + decoded.text == Joined(sent) + text;
      fed := fed + data;
      batches := [];
      if text != "" && Due(text, started.value, onCheck) && Due(text, started.value, onFlush) {
        batches := Cut();
      }
    }

    /** The text held back becomes the next batch. */
    method Cut() returns (batches: seq<Batch>)
      requires text != "" && Numbered(sent) && number == |sent| && Decode(codec, [], fed).text == Joined(sent) + text
      modifies this
      ensures batches == [Batch(old(text), old(number) + 1)] && sent == old(sent) + batches
      ensures Numbered(sent) && number == |sent| && Joined(sent) == Joined(old(sent)) + old(text)
      ensures text == "" && started == None && kept == old(kept) && fed == old(fed)
    {
      JoinedSnoc(sent, Batch(text, number + 1));
      number := number + 1;
      batches := [Batch(text, number)];
      sent := sent + batches;
      text := "";
      started := None;
    }

    /** `flush()` between reads. */
    method Flush(now: real) returns (batches: seq<Batch>)
      requires Valid()
      modifies this
      ensures Valid() && fed == old(fed) && sent == old(sent) + batches
      ensures if old(text) != "" && now - old(started).value >= TERM_BATCH_INTERVAL
              then batches == [Batch(old(text), old(number) + 1)] && text == ""
              else batches == [] && text == old(text) && started == old(started)
    {
      batches := [];
      if text != "" && Due(text, started.value, now) {
        batches := Cut();
      }
    }

    /** `flush(final=True)`: everything fed has now gone out, decoded to the end. */
    method FlushFinal(onText: real) returns (batches: seq<Batch>)
      requires Valid()
      modifies this
      ensures fed == old(fed) && sent == old(sent) + batches && |batches| <= 1
      ensures Numbered(sent) && Joined(sent) == Whole(codec, fed) && text == ""
    {
      hide Decode, Joined;
      ghost var before := text;
      var tail := codec.atEnd(kept);
      if tail != "" {
        if text == "" {
          started := Some(onText);
        }
        text := text + tail;
      }
      batches := [];
      assert Whole(codec, fed) == Joined(sent) +
          text by { assert Joined(sent) + before + tail == Joined(sent) + (before + tail); }
      if text != "" {
        JoinedSnoc(sent, Batch(text, number + 1));
        number := number + 1;
        batches := [Batch(text, number)];
        sent := sent + batches;
        text := "";
        started := None;
      }
    }
  }
}
