/** Journal files as bytes: one encoded record per line, possibly torn at the end. */
module JournalFiles {
  import opened Protocol

  const NEWLINE: Byte := 10
  const SCAN_BYTES := 8 * 1024

  /** How a record is written on a line; `decode` also rejects a wrong checksum. */
  datatype Codec<!R> = Codec(encode: R -> seq<Byte>, decode: seq<Byte> -> Option<R>)

  /** Records read back as they were written, and no encoding contains a line break. */
  ghost predicate Faithful<R(!new)>(codec: Codec<R>) {
    forall r ::
      && codec.decode(codec.encode(r)) == Some(r)
      && forall k :: 0 <= k < |codec.encode(r)| ==> codec.encode(r)[k] != NEWLINE
  }

  function Line<R>(codec: Codec<R>, r: R): seq<Byte> {
    codec.encode(r) + [NEWLINE]
  }

  function LinesOf<R>(codec: Codec<R>, records: seq<R>): seq<Byte> {
    if records == [] then [] else Line(codec, records[0]) + LinesOf(codec, records[1..])
  }

  /** The position of the first line break, or the length. */
  function FirstBreak(bytes: seq<Byte>): (i: nat)
    ensures i <= |bytes| && (i < |bytes| ==> bytes[i] == NEWLINE) && forall k :: 0 <= k < i ==> bytes[k] != NEWLINE
  {
    if bytes == [] || bytes[0] == NEWLINE then 0
    else
      var i := FirstBreak(bytes[1..]);
      assert forall k :: 1 <= k < i + 1 ==> bytes[k] == bytes[1..][k - 1];
      i + 1
  }

  /** Everything up to and including the last line break. */
  function Complete(bytes: seq<Byte>): (r: seq<Byte>)
    ensures r <= bytes && (r != [] ==> r[|r| - 1] == NEWLINE)
    ensures forall k :: |r| <= k < |bytes| ==> bytes[k] != NEWLINE
  {
    if bytes == [] || bytes[|bytes| - 1] == NEWLINE then bytes else Complete(bytes[..|bytes| - 1])
  }

  /** What loading a file gives: its complete lines, decoded, or the first line that is bad.
      A final line without its break is ignored. */
  function Parsed<R>(codec: Codec<R>, bytes: seq<Byte>, line: nat): Result<seq<R>, nat>
    decreases |bytes|
  {
    var i := FirstBreak(bytes);
    if i == |bytes| then Ok([])
    else if codec.decode(bytes[..i]).None? then Err(line)
    else
      var rest := Parsed(codec, bytes[i + 1..], line + 1);
      if rest.Err? then rest else Ok([codec.decode(bytes[..i]).value] + rest.value)
  }

  class JournalFile<R> {
    const codec: Codec<R>
    var bytes: seq<Byte>

    constructor (codec: Codec<R>)
      ensures this.codec == codec && bytes == []
    {
      this.codec, bytes := codec, [];
    }

    /** Reads line by line until the end, a torn line, or a bad one. */
    method Load() returns (outcome: Result<seq<R>, nat>)
      ensures outcome == Parsed(codec, bytes, 1)
    {
      hide Parsed;
      var records: seq<R> := [];
      var position, number: nat := 0, 0;
      assert bytes[0..] == bytes;
      PrependNothing(Parsed(codec, bytes, 1));
      while true
        invariant position <= |bytes|
        invariant Parsed(codec, bytes, 1) == Prepended(records, Parsed(codec, bytes[position..], number + 1))
        decreases |bytes| - position
      {
        ParsedStep(codec, bytes[position..], number + 1);
        assert records + [] == records;
        var read := FirstBreak(bytes[position..]);
        if position == |bytes| {
          break;
        }
        number := number + 1;
        if position + read == |bytes| {
          break;
        }
        var line := bytes[position..][..read];
        assert bytes[position..][read + 1..] == bytes[position + read + 1..];
        var record := codec.decode(line);
        if record.None? {
          return Err(number);
        }
        PrependMore(records, record.value, Parsed(codec, bytes[position + read + 1..], number + 1));
        records := records + [record.value];
        position := position + read + 1;
      }
      outcome := Ok(records);
    }

    /** Cuts the file after its last line break, looking for it backwards block by block. */
    method TruncateTornTail()
      modifies this`bytes
      ensures bytes == Complete(old(bytes))
    {
      var length := |bytes|;
      if length == 0 || bytes[length - 1] == NEWLINE {
        return;
      }
      var end: nat := length;
      while end > 0
        invariant end <= |bytes| && bytes == old(bytes)
        invariant forall k :: end <= k < |bytes| ==> bytes[k] != NEWLINE
      {
        var start: nat := if end >= SCAN_BYTES then end - SCAN_BYTES else 0;
        var index := LastBreak(bytes[start..end]);
        assert forall k :: start <= k < end ==> bytes[k] == bytes[start..end][k - start];
        if index.Some? {
          CompleteIs(bytes, start + index.value + 1);
          bytes := bytes[..start + index.value + 1];
          return;
        }
        end := start;
      }
      CompleteIs(bytes, 0);
      bytes := [];
    }

    /** Opens the file for writing, which repairs it, and adds one record. */
    method Append(r: R)
      modifies this`bytes
      ensures bytes == Complete(old(bytes)) + Line(codec, r)
    {
      TruncateTornTail();
      bytes := bytes + codec.encode(r) + [NEWLINE];
      assert bytes == Complete(old(bytes)) + Line(codec, r);
    }
  }

  method LastBreak(block: seq<Byte>) returns (index: Option<nat>)
    ensures index.None? ==> forall k :: 0 <= k < |block| ==> block[k] != NEWLINE
    ensures index.Some? ==> index.value < |block| && block[index.value] == NEWLINE
    ensures index.Some? ==> forall k :: index.value < k < |block| ==> block[k] != NEWLINE
  {
    var i: nat := |block|;
    while i > 0
      invariant i <= |block| && forall k :: i <= k < |block| ==> block[k] != NEWLINE
    {
      i := i - 1;
      if block[i] == NEWLINE {
        return Some(i);
      }
    }
    index := None;
  }

  function Prepended<R>(records: seq<R>, rest: Result<seq<R>, nat>): Result<seq<R>, nat> {
    if rest.Err? then rest else Ok(records + rest.value)
  }

  lemma PrependNothing<R>(rest: Result<seq<R>, nat>)
    ensures Prepended([], rest) == rest
  {
    if rest.Ok? {
      assert [] + rest.value == rest.value;
    }
  }

  lemma ParsedStep<R>(codec: Codec<R>, bytes: seq<Byte>, line: nat)
    ensures var i := FirstBreak(bytes);
            Parsed(codec, bytes, line) ==
            if i == |bytes| then Ok([])
            else if codec.decode(bytes[..i]).None? then Err(line)
            else
              var rest := Parsed(codec, bytes[i + 1..], line + 1);
              if rest.Err? then rest else Ok([codec.decode(bytes[..i]).value] + rest.value)
  {
  }

  lemma PrependMore<R>(records: seq<R>, r: R, rest: Result<seq<R>, nat>)
    ensures Prepended(records, if rest.Err? then rest else Ok([r] + rest.value)) == Prepended(records + [r], rest)
  {
    if rest.Ok? {
      assert records + ([r] + rest.value) == records + [r] + rest.value;
    }
  }

  // ----- cutting and parsing -----

  lemma {:induction false} CompleteIs(bytes: seq<Byte>, cut: nat)
    requires cut <= |bytes| && (cut > 0 ==> bytes[cut - 1] == NEWLINE)
    requires forall k :: cut <= k < |bytes| ==> bytes[k] != NEWLINE
    ensures Complete(bytes) == bytes[..cut]
  {
    if cut == |bytes| {
      assert bytes[..cut] == bytes;
    } else {
      CompleteIs(bytes[..|bytes| - 1], cut);
      assert bytes[..|bytes| - 1][..cut] == bytes[..cut];
    }
  }

  lemma FirstBreakIs(bytes: seq<Byte>, i: nat)
    requires i < |bytes| && bytes[i] == NEWLINE && forall k :: 0 <= k < i ==> bytes[k] != NEWLINE
    ensures FirstBreak(bytes) == i
  {
  }

  lemma NoBreak(bytes: seq<Byte>)
    requires forall k :: 0 <= k < |bytes| ==> bytes[k] != NEWLINE
    ensures FirstBreak(bytes) == |bytes|
  {
  }

  /** The first line of a text that ends in a line break, with more text after it. */
  lemma SplitFirst(bytes: seq<Byte>, tail: seq<Byte>)
    requires bytes != [] && bytes[|bytes| - 1] == NEWLINE
    ensures var i := FirstBreak(bytes);
            && i < |bytes| && FirstBreak(bytes + tail) == i
            && (bytes + tail)[..i] == bytes[..i] && (bytes + tail)[i + 1..] == bytes[i + 1..] + tail
            && (bytes[i + 1..] == [] || bytes[i + 1..][|bytes[i + 1..]| - 1] == NEWLINE)
  {
    FirstBreakIs(bytes + tail, FirstBreak(bytes));
  }

  /** Loading complete lines followed by anything is loading them and then the rest. */
  lemma {:induction false} ParsedAppend<R>(codec: Codec<R>, bytes: seq<Byte>, tail: seq<Byte>, line: nat)
    requires bytes == [] || bytes[|bytes| - 1] == NEWLINE
    requires Parsed(codec, bytes, line).Ok?
    ensures Parsed(codec, bytes + tail, line)
            == Prepended(Parsed(codec, bytes, line).value,
                         Parsed(codec, tail, line + |Parsed(codec, bytes, line).value|))
    decreases |bytes|
  {
    hide Parsed;
    ParsedStep(codec, bytes, line);
    if bytes == [] {
      assert bytes + tail == tail;
      PrependNothing(Parsed(codec, tail, line));
    } else {
      SplitFirst(bytes, tail);
      var i := FirstBreak(bytes);
      ParsedStep(codec, bytes + tail, line);
      ParsedAppend(codec, bytes[i + 1..], tail, line + 1);
      var rest := Parsed(codec, bytes[i + 1..], line + 1).value;
      PrependOne(codec.decode(bytes[..i]).value, rest, Parsed(codec, tail, line + 1 + |rest|));
    }
  }

  lemma PrependOne<R>(r: R, rest: seq<R>, after: Result<seq<R>, nat>)
    ensures Prepended([r] + rest, after)
            == if Prepended(rest, after).Err? then after else Ok([r] + Prepended(rest, after).value)
  {
    if after.Ok? {
      assert [r] + rest + after.value == [r] + (rest + after.value);
    }
  }

  lemma TornParsesEmpty<R>(codec: Codec<R>, torn: seq<Byte>, line: nat)
    requires forall k :: 0 <= k < |torn| ==> torn[k] != NEWLINE
    ensures Parsed(codec, torn, line) == Ok([])
  {
    NoBreak(torn);
  }

  /** A torn tail neither adds a record nor spoils the file. */
  lemma CompleteParses<R>(codec: Codec<R>, bytes: seq<Byte>)
    ensures Parsed(codec, Complete(bytes), 1) == Parsed(codec, bytes, 1)
  {
    hide Parsed, Complete;
    var kept := Complete(bytes);
    var torn := bytes[|kept|..];
    assert bytes == kept + torn;
    if Parsed(codec, kept, 1).Ok? {
      ParsedAppend(codec, kept, torn, 1);
      TornParsesEmpty(codec, torn, 1 + |Parsed(codec, kept, 1).value|);
      assert Parsed(codec, kept, 1).value + [] == Parsed(codec, kept, 1).value;
    } else {
      ParsedBad(codec, kept, torn, 1);
    }
  }

  lemma {:induction false} ParsedBad<R>(codec: Codec<R>, bytes: seq<Byte>, tail: seq<Byte>, line: nat)
    requires bytes == [] || bytes[|bytes| - 1] == NEWLINE
    requires Parsed(codec, bytes, line).Err?
    ensures Parsed(codec, bytes + tail, line) == Parsed(codec, bytes, line)
    decreases |bytes|
  {
    hide Parsed;
    ParsedStep(codec, bytes, line);
    if bytes != [] {
      SplitFirst(bytes, tail);
      ParsedStep(codec, bytes + tail, line);
      if codec.decode(bytes[..FirstBreak(bytes)]).Some? {
        ParsedBad(codec, bytes[FirstBreak(bytes) + 1..], tail, line + 1);
      }
    }
  }

  lemma LineParses<R(!new)>(codec: Codec<R>, r: R, line: nat)
    requires Faithful(codec)
    ensures Parsed(codec, Line(codec, r), line) == Ok([r])
  {
    hide Parsed;
    var bytes := Line(codec, r);
    assert bytes[..|bytes| - 1] == codec.encode(r);
    FirstBreakIs(bytes, |bytes| - 1);
    ParsedStep(codec, bytes, line);
    TornParsesEmpty(codec, [], line + 1);
    assert bytes[|bytes|..] == [];
    assert [r] + [] == [r];
  }

  /** Any complete lines followed by a strict prefix of one more line load as exactly the
      complete records. */
  lemma {:induction false} LoadsCompleteRecords<R(
    !new)>(codec: Codec<R>, records: seq<R>, next: R, torn: seq<Byte>, line: nat)
    requires Faithful(codec) && torn < Line(codec, next)
    ensures Parsed(codec, LinesOf(codec, records) + torn, line) == Ok(records)
    decreases |records|
  {
    hide Parsed;
    if records == [] {
      assert LinesOf(codec, records) + torn == torn;
      assert torn == codec.encode(next)[..|torn|];
      TornParsesEmpty(codec, torn, line);
    } else {
      var first := Line(codec, records[0]);
      var rest := LinesOf(codec, records[1..]) + torn;
      assert LinesOf(codec, records) + torn == first + rest;
      LineParses(codec, records[0], line);
      ParsedAppend(codec, first, rest, line);
      LoadsCompleteRecords(codec, records[1..], next, torn, line + 1);
      assert [records[0]] + records[1..] == records;
    }
  }

  /** However far an append got when the leader died, the next load finds the records from
      before it, and the new one exactly if its line is complete. */
  lemma AppendIsAtomic<R(!new)>(codec: Codec<R>, before: seq<Byte>, r: R, written: nat)
    requires Faithful(codec) && written <= |Line(codec, r)| && Parsed(codec, before, 1).Ok?
    ensures var records := Parsed(codec, before, 1).value;
            Parsed(codec, Complete(before) + Line(codec, r)[..written], 1)
            == Ok(if written == |Line(codec, r)| then records + [r] else records)
  {
    hide Parsed, Complete;
    CompleteParses(codec, before);
    var part, records := Line(codec, r)[..written], Parsed(codec, before, 1).value;
    ParsedAppend(codec, Complete(before), part, 1);
    if written == |Line(codec, r)| {
      assert part == Line(codec, r);
      LineParses(codec, r, 1 + |records|);
    } else {
      assert part == codec.encode(r)[..written];
      TornParsesEmpty(codec, part, 1 + |records|);
      assert records + [] == records;
    }
  }

  /** Appending to any file that loads, torn or not, and loading again gives the old records
      and the new one. */
  method AppendAndLoad<R(!new)>(file: JournalFile<R>, r: R) returns (outcome: Result<seq<R>, nat>)
    requires Faithful(file.codec) && Parsed(file.codec, file.bytes, 1).Ok?
    modifies file
    ensures outcome == Ok(Parsed(file.codec, old(file.bytes), 1).value + [r])
  {
    AppendIsAtomic(file.codec, file.bytes, r, |Line(file.codec, r)|);
    assert Line(file.codec, r)[..|Line(file.codec, r)|] == Line(file.codec, r);
    file.Append(r);
    outcome := file.Load();
  }
}
