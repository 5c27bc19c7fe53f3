/** The Redis serialization protocol as the queue client writes and reads it: commands are arrays of bulk
    strings (internal/cpa/redis_queue_client.go). A byte is modelled as a character. */
module Resp {
  import opened Accounting
  import opened Aggregation
  import opened Decimals

  datatype RespValue =
    | Simple(text: string) | Failure(text: string) | Bulk(text: string) | Array(items: seq<RespValue>) | Nil

  datatype Parsed<T> = Parsed(value: T, rest: string) | Malformed

  const CRLF := "\r\n"

  // Integers

  const INT_LIMIT := 0x8000_0000_0000_0000

  /** `strconv.Atoi`: an optional sign, at least one digit, and the range of a 64-bit integer. */
  function Atoi(s: string): Option<int> {
    var digits := if s != "" && (s[0] == '-' || s[0] == '+') then s[1..] else s;
    if digits == "" || !AllDigits(digits) then None
    else
      var n: int := if s[0] == '-' then 0 - Value(digits) else Value(digits);
      if -INT_LIMIT <= n < INT_LIMIT then Some(n) else None
  }

  lemma AtoiOfDecimal(n: nat)
    requires n < INT_LIMIT
    ensures Atoi(Decimal(n)) == Some(n)
  {
    DecimalRoundTrip(n);
    assert Decimal(n)[0] in Decimal(n);
  }

  // Reading

  function TrimSuffixReturn(line: string): string {
    if line != "" && line[|line| - 1] == '\r' then line[..|line| - 1] else line
  }

  /** Up to the first newline; an unterminated line is an error. */
  function UpToNewline(input: string): (p: Parsed<string>)
    ensures p.Parsed? ==> |p.rest| < |input|
  {
    if input == "" then Malformed
    else if input[0] == '\n' then Parsed("", input[1..])
    else match UpToNewline(input[1..])
      case Malformed => Malformed
      case Parsed(line, rest) => Parsed([input[0]] + line, rest)
  }

  function ParseLine(input: string): (p: Parsed<string>)
    ensures p.Parsed? ==> |p.rest| < |input|
  {
    match UpToNewline(input)
    case Malformed => Malformed
    case Parsed(line, rest) => Parsed(TrimSuffixReturn(line), rest)
  }

  /** A line holding an integer. */
  function ParseCount(input: string): (p: Parsed<int>)
    ensures p.Parsed? ==> |p.rest| < |input|
  {
    match ParseLine(input)
    case Malformed => Malformed
    case Parsed(line, rest) => if Atoi(line).None? then Malformed else Parsed(Atoi(line).value, rest)
  }

  /** The payload of a bulk string, and the two bytes after it, whatever they are. */
  function ParseBulk(input: string): (p: Parsed<RespValue>)
    ensures p.Parsed? ==> |p.rest| < |input|
  {
    match ParseCount(input)
    case Malformed => Malformed
    case Parsed(size, rest) =>
      if size < 0 then Parsed(Nil, rest)
      else if |rest| < size + 2 then Malformed
      else Parsed(Bulk(rest[..size]), rest[size + 2..])
  }

  function ParseValue(input: string): (p: Parsed<RespValue>)
    ensures p.Parsed? ==> |p.rest| < |input|
    decreases |input|, 0
  {
    if input == "" then Malformed
    else match input[0]
      case '+' =>
        (match ParseLine(input[1..]) case Malformed => Malformed case Parsed(line, rest) => Parsed(Simple(line), rest))
      case '-' =>
        (match ParseLine(input[1..]) case Malformed => Malformed case Parsed(line, rest) => Parsed(Failure(line), rest))
      case '$' => ParseBulk(input[1..])
      case '*' => ParseArray(input[1..])
      case _ => Malformed
  }

  function ParseArray(input: string): (p: Parsed<RespValue>)
    ensures p.Parsed? ==> |p.rest| < |input|
    decreases |input|, 0
  {
    match ParseCount(input)
    case Malformed => Malformed
    case Parsed(count, rest) =>
      if count < 0 then Parsed(Nil, rest)
      else match ParseItems(rest, count)
        case Malformed => Malformed
        case Parsed(items, after) => Parsed(Array(items), after)
  }

  function ParseItems(input: string, count: nat): (p: Parsed<seq<RespValue>>)
    ensures p.Parsed? ==> |p.rest| <= |input| && |p.value| == count
    decreases |input|, count + 1
  {
    if count == 0 then Parsed([], input)
    else match ParseValue(input)
      case Malformed => Malformed
      case Parsed(item, rest) =>
        match ParseItems(rest, count - 1)
        case Malformed => Malformed
        case Parsed(items, after) => Parsed([item] + items, after)
  }

  /** The reader over the connection's remaining bytes. */
  class RespReader {
    var input: string

    constructor (input: string)
      ensures this.input == input
    {
      this.input := input;
    }

    method ReadLine() returns (line: Option<string>)
      modifies this
      ensures line.Some? <==> ParseLine(old(input)).Parsed?
      ensures line.Some? ==> ParseLine(old(input)) == Parsed(line.value, input)
    {
      var read := 0;
      while read < |input| && input[read] != '\n'
        invariant read <= |input|
        invariant forall k :: 0 <= k < read ==> input[k] != '\n'
      {
        read := read + 1;
      }
      NewlineAt(input, read);
      if read == |input| {
        return None;
      }
      line := Some(TrimSuffixReturn(input[..read]));
      input := input[read + 1..];
    }

    method ReadCount() returns (count: Option<int>)
      modifies this
      ensures count.Some? <==> ParseCount(old(input)).Parsed?
      ensures count.Some? ==> ParseCount(old(input)) == Parsed(count.value, input)
    {
      var line := ReadLine();
      if line.None? {
        return None;
      }
      count := Atoi(line.value);
    }

    method ReadBulk() returns (value: Option<RespValue>)
      modifies this
      ensures value.Some? <==> ParseBulk(old(input)).Parsed?
      ensures value.Some? ==> ParseBulk(old(input)) == Parsed(value.value, input)
    {
      var size := ReadCount();
      if size.None? {
        return None;
      }
      if size.value < 0 {
        return Some(Nil);
      }
      if |input| < size.value + 2 {
        return None;
      }
      value := Some(Bulk(input[..size.value]));
      input := input[size.value + 2..];
    }

    method ReadValue() returns (value: Option<RespValue>)
      modifies this
      ensures value.Some? <==> ParseValue(old(input)).Parsed?
      ensures value.Some? ==> ParseValue(old(input)) == Parsed(value.value, input)
      decreases |input|, 0
    {
      if input == "" {
        return None;
      }
      var prefix := input[0];
      input := input[1..];
      match prefix
      case '+' =>
        var line := ReadLine();
        value := if line.None? then None else Some(Simple(line.value));
      case '-' =>
        var line := ReadLine();
        value := if line.None? then None else Some(Failure(line.value));
      case '$' =>
        value := ReadBulk();
      case '*' =>
        value := ReadArray();
      case _ =>
        value := None;
    }

    method ReadArray() returns (value: Option<RespValue>)
      modifies this
      ensures value.Some? <==> ParseArray(old(input)).Parsed?
      ensures value.Some? ==> ParseArray(old(input)) == Parsed(value.value, input)
      decreases |input|, 1
    {
      var count := ReadCount();
      if count.None? {
        return None;
      }
      if count.value < 0 {
        return Some(Nil);
      }
      ghost var start := input;
      var items: seq<RespValue> := [];
      AwaitsAll(start, count.value);
      while |items| < count.value
        invariant |input| <= |start| < |old(input)|
        invariant Awaits(start, count.value, items, input)
      {
        AwaitsNext(start, count.value, items, input);
        var item := ReadValue();
        if item.None? {
          return None;
        }
        items := items + [item.value];
      }
      AwaitsNone(start, count.value, items, input);
      value := Some(Array(items));
    }
  }

  /** Items read so far in front of what the rest parses to. */
  function Resumed(items: seq<RespValue>, more: Parsed<seq<RespValue>>): Parsed<seq<RespValue>> {
    match more
    case Malformed => Malformed
    case Parsed(later, rest) => Parsed(items + later, rest)
  }

  lemma ResumedFromNothing(p: Parsed<seq<RespValue>>)
    ensures Resumed([], p) == p
  {
    if p.Parsed? { assert [] + p.value == p.value; }
  }

  lemma ResumedStep(items: seq<RespValue>, item: RespValue, p: Parsed<seq<RespValue>>)
    ensures Resumed(items, Resumed([item], p)) == Resumed(items + [item], p)
  {
    if p.Parsed? { assert items + ([item] + p.value) == items + [item] + p.value; }
  }

  lemma ItemsUnfold(input: string, count: nat)
    requires 0 < count
    ensures ParseValue(input).Malformed? ==> ParseItems(input, count).Malformed?
    ensures ParseValue(input).Parsed? ==>
      ParseItems(input, count) == Resumed([ParseValue(input).value], ParseItems(ParseValue(input).rest, count - 1))
  {
  }

  /** The items read so far, with those still to be read from the input, are the items of the array. */
  ghost predicate Awaits(start: string, count: nat, items: seq<RespValue>, input: string) {
    |items| <= count && ParseItems(start, count) == Resumed(items, ParseItems(input, count - |items|))
  }

  lemma AwaitsAll(start: string, count: nat)
    ensures Awaits(start, count, [], start)
  {
    ResumedFromNothing(ParseItems(start, count));
  }

  lemma AwaitsNext(start: string, count: nat, items: seq<RespValue>, input: string)
    requires Awaits(start, count, items, input) && |items| < count
    ensures ParseValue(input).Malformed? ==> ParseItems(start, count).Malformed?
    ensures ParseValue(input).Parsed? ==>
      Awaits(start, count, items + [ParseValue(input).value], ParseValue(input).rest)
  {
    ItemsUnfold(input, count - |items|);
    if ParseValue(input).Parsed? {
      ResumedStep(items, ParseValue(input).value, ParseItems(ParseValue(input).rest, count - |items| - 1));
    }
  }

  lemma AwaitsNone(start: string, count: nat, items: seq<RespValue>, input: string)
    requires Awaits(start, count, items, input) && |items| == count
    ensures ParseItems(start, count) == Parsed(items, input)
  {
    assert items + [] == items;
  }

  /** The first newline ends the line. */
  lemma {:induction false} NewlineAt(input: string, n: nat)
    requires n <= |input| && forall k :: 0 <= k < n ==> input[k] != '\n'
    ensures n == |input| ==> UpToNewline(input).Malformed?
    ensures n < |input| && input[n] == '\n' ==> UpToNewline(input) == Parsed(input[..n], input[n + 1..])
  {
    if 0 < n {
      assert forall k :: 0 <= k < n - 1 ==> input[1..][k] == input[k + 1];
      NewlineAt(input[1..], n - 1);
      if n < |input| && input[n] == '\n' {
        assert [input[0]] + input[1..][..n - 1] == input[..n];
        assert input[1..][n..] == input[n + 1..];
      }
    }
  }

  // Writing

  function EncodedPart(part: string): string { "$" + Decimal(|part|) + CRLF + part + CRLF }

  function EncodedParts(parts: seq<string>): string {
    if parts == [] then "" else EncodedPart(parts[0]) + EncodedParts(parts[1..])
  }

  function Encoded(parts: seq<string>): string { "*" + Decimal(|parts|) + CRLF + EncodedParts(parts) }

  lemma {:induction false} EncodedSnoc(parts: seq<string>, n: nat)
    requires n < |parts|
    ensures EncodedParts(parts[..n + 1]) == EncodedParts(parts[..n]) + EncodedPart(parts[n])
  {
    if n == 0 {
      assert parts[..1] == [parts[0]] && parts[..0] == [];
      assert EncodedParts([parts[0]]) == EncodedPart(parts[0]) + EncodedParts([]);
    } else {
      assert parts[..n + 1][1..] == parts[1..][..n] && parts[..n][1..] == parts[1..][..n - 1];
      EncodedSnoc(parts[1..], n - 1);
    }
  }

  method WriteRespCommand(parts: seq<string>) returns (written: string)
    ensures written == Encoded(parts)
  {
    written := "*" + Decimal(|parts|) + CRLF;
    for i := 0 to |parts|
      invariant written == "*" + Decimal(|parts|) + CRLF + EncodedParts(parts[..i])
    {
      EncodedSnoc(parts, i);
      Joined("*" + Decimal(|parts|) + CRLF, EncodedParts(parts[..i]), EncodedPart(parts[i]));
      written := written + EncodedPart(parts[i]);
    }
    assert parts[..|parts|] == parts;
  }

  // Round trip

  lemma CountLine(n: nat, rest: string)
    requires n < INT_LIMIT
    ensures ParseCount(Decimal(n) + CRLF + rest) == Parsed(n, rest)
  {
    DecimalRoundTrip(n);
    var input, length := Decimal(n) + CRLF + rest, |Decimal(n)|;
    forall k | 0 <= k < length ensures input[k] != '\n' {
      assert input[k] == Decimal(n)[k] && Decimal(n)[k] in Decimal(n);
    }
    assert input[length] == '\r' && input[length + 1] == '\n';
    NewlineAt(input, length + 1);
    assert input[length + 2..] == rest;
    assert input[..length + 1] == Decimal(n) + "\r";
    assert TrimSuffixReturn(Decimal(n) + "\r") == Decimal(n);
    AtoiOfDecimal(n);
  }

  lemma PartRoundTrip(part: string, rest: string)
    requires |part| < INT_LIMIT
    ensures ParseValue(EncodedPart(part) + rest) == Parsed(Bulk(part), rest)
  {
    var body := part + CRLF + rest;
    BehindHead('$', Decimal(|part|), CRLF, part + CRLF, rest);
    assert EncodedPart(part) == ['$'] + Decimal(|part|) + CRLF + (part + CRLF);
    assert part + CRLF + rest == body;
    CountLine(|part|, body);
    assert body[..|part|] == part && body[|part| + 2..] == rest;
  }

  function Bulks(parts: seq<string>): (vs: seq<RespValue>)
    ensures |vs| == |parts|
  {
    seq(|parts|, i requires 0 <= i < |parts| => Bulk(parts[i]))
  }

  lemma Joined(a: string, b: string, c: string)
    ensures (a + b) + c == a + (b + c)
  {
  }

  /** One item, and then the items of what it leaves. */
  lemma {:induction false} OneItemMore(input: string, item: RespValue, between: string, items: seq<RespValue>,
                                       rest: string)
    requires ParseValue(input) == Parsed(item, between) && ParseItems(between, |items|) == Parsed(items, rest)
    ensures ParseItems(input, |items| + 1) == Parsed([item] + items, rest)
  {
  }

  /** Five texts in a row, without the first character. */
  lemma BehindHead(head: char, a: string, b: string, c: string, rest: string)
    ensures ([head] + a + b + c + rest)[0] == head && ([head] + a + b + c + rest)[1..] == a + b + (c + rest)
  {
  }

  lemma ArrayOfItems(count: nat, body: string, items: seq<RespValue>, rest: string)
    requires count < INT_LIMIT && ParseItems(body + rest, count) == Parsed(items, rest)
    ensures ParseValue("*" + Decimal(count) + CRLF + body + rest) == Parsed(Array(items), rest)
  {
    BehindHead('*', Decimal(count), CRLF, body, rest);
    CountLine(count, body + rest);
  }

  // Replies

  /** What a server writes for a value. */
  function Wire(v: RespValue): string {
    match v
    case Simple(text) => "+" + text + CRLF
    case Failure(text) => "-" + text + CRLF
    case Bulk(text) => EncodedPart(text)
    case Nil => "$" + "-1" + CRLF
    case Array(items) => "*" + Decimal(|items|) + CRLF + WireAll(items)
  }

  function WireAll(items: seq<RespValue>): string {
    if items == [] then "" else Wire(items[0]) + WireAll(items[1..])
  }

  /** Lines hold no newline, and lengths fit into 64 bits. */
  predicate Writable(v: RespValue) {
    match v
    case Simple(text) => '\n' !in text
    case Failure(text) => '\n' !in text
    case Bulk(text) => |text| < INT_LIMIT
    case Nil => true
    case Array(items) => |items| < INT_LIMIT && forall item :: item in items ==> Writable(item)
  }

  lemma LineRoundTrip(text: string, rest: string)
    requires '\n' !in text
    ensures ParseLine(text + CRLF + rest) == Parsed(text, rest)
  {
    var input, n := text + CRLF + rest, |text|;
    assert input[n] == '\r' && input[n + 1] == '\n';
    NewlineAt(input, n + 1);
    assert input[n + 2..] == rest && input[..n + 1] == text + "\r";
    assert (text + "\r")[..n] == text;
  }

  /** A negative length stands for nothing, of either kind. */
  lemma NilRoundTrip(head: char, rest: string)
    requires head == '$' || head == '*'
    ensures ParseValue([head] + "-1" + CRLF + rest) == Parsed(Nil, rest)
  {
    LineRoundTrip("-1", rest);
    assert ([head] + "-1" + CRLF + rest)[1..] == "-1" + CRLF + rest;
    assert Value("1") == 1 && "-1"[1..] == "1";
    assert Atoi("-1") == Some(-1);
  }

  lemma LineOf(head: char, text: string, rest: string)
    requires '\n' !in text && (head == '+' || head == '-')
    ensures ParseValue([head] + text + CRLF + rest) == Parsed(if head == '+' then Simple(text) else Failure(text), rest)
  {
    LineRoundTrip(text, rest);
    assert ([head] + text + CRLF + rest)[1..] == text + CRLF + rest;
  }

  /** Every reply is read as what was written: plain lines and errors told apart, nested arrays item by item, and
      nothing consumed beyond it. */
  lemma {:induction false} ValueRoundTrip(v: RespValue, rest: string)
    requires Writable(v)
    ensures ParseValue(Wire(v) + rest) == Parsed(v, rest)
    decreases v
  {
    match v
    case Simple(text) => LineOf('+', text, rest);
    case Failure(text) => LineOf('-', text, rest);
    case Bulk(text) => PartRoundTrip(text, rest);
    case Nil => NilRoundTrip('$', rest);
    case Array(items) =>
      ItemsRoundTrip(items, rest);
      ArrayOfItems(|items|, WireAll(items), items, rest);
  }

  lemma {:induction false} ItemsRoundTrip(items: seq<RespValue>, rest: string)
    requires forall item :: item in items ==> Writable(item)
    ensures ParseItems(WireAll(items) + rest, |items|) == Parsed(items, rest)
    decreases items
  {
    if items == [] {
      assert WireAll(items) + rest == rest;
    } else {
      var first, later := items[0], items[1..];
      var between := WireAll(later) + rest;
      Joined(Wire(first), WireAll(later), rest);
      assert first in items && forall item :: item in later ==> item in items;
      ValueRoundTrip(first, between);
      ItemsRoundTrip(later, rest);
      OneItemMore(Wire(first) + between, first, between, later, rest);
      assert items == [first] + later;
    }
  }

  /** A command is an array of bulk strings. */
  lemma {:induction false} PartsAreWire(parts: seq<string>)
    ensures EncodedParts(parts) == WireAll(Bulks(parts))
  {
    if parts != [] {
      PartsAreWire(parts[1..]);
      assert Bulks(parts)[1..] == Bulks(parts[1..]);
    }
  }

  /** Reading what was written gives exactly the parts, whatever bytes they contain, and leaves exactly
      what follows. */
  lemma {:induction false} RoundTrip(parts: seq<string>, rest: string)
    requires |parts| < INT_LIMIT && forall part :: part in parts ==> |part| < INT_LIMIT
    ensures ParseValue(Encoded(parts) + rest) == Parsed(Array(Bulks(parts)), rest)
  {
    PartsAreWire(parts);
    ItemsRoundTrip(Bulks(parts), rest);
    ArrayOfItems(|parts|, EncodedParts(parts), Bulks(parts), rest);
  }

  // Partial input

  lemma {:induction false} LineExtends(input: string, more: string)
    requires UpToNewline(input).Parsed?
    ensures UpToNewline(input + more) == Parsed(UpToNewline(input).value, UpToNewline(input).rest + more)
  {
    if input[0] == '\n' {
      assert (input + more)[1..] == input[1..] + more;
    } else {
      assert (input + more)[1..] == input[1..] + more;
      LineExtends(input[1..], more);
    }
  }

  lemma BulkExtends(input: string, more: string)
    requires ParseBulk(input).Parsed?
    ensures ParseBulk(input + more) == Parsed(ParseBulk(input).value, ParseBulk(input).rest + more)
  {
    LineExtends(input, more);
    var (size, rest) := (ParseCount(input).value, ParseCount(input).rest);
    assert ParseCount(input + more) == Parsed(size, rest + more);
    if 0 <= size {
      assert (rest + more)[..size] == rest[..size] && (rest + more)[size + 2..] == rest[size + 2..] + more;
    }
  }

  /** A value that has been read does not depend on what follows it. */
  lemma {:induction false} ValueExtends(input: string, more: string)
    requires ParseValue(input).Parsed?
    ensures ParseValue(input + more) == Parsed(ParseValue(input).value, ParseValue(input).rest + more)
    decreases |input|, 0
  {
    var tail := input[1..];
    assert (input + more)[0] == input[0] && (input + more)[1..] == tail + more;
    if input[0] == '$' {
      BulkExtends(tail, more);
    } else {
      LineExtends(tail, more);
      if input[0] == '*' && 0 <= ParseCount(tail).value {
        ItemsExtend(ParseCount(tail).rest, ParseCount(tail).value, more);
      }
    }
  }

  lemma {:induction false} ItemsExtend(input: string, count: nat, more: string)
    requires ParseItems(input, count).Parsed?
    ensures ParseItems(input + more, count)
      == Parsed(ParseItems(input, count).value, ParseItems(input, count).rest + more)
    decreases |input|, count + 1
  {
    if 0 < count {
      ValueExtends(input, more);
      ItemsExtend(ParseValue(input).rest, count - 1, more);
    }
  }

  /** A reply cut short is an error, never a shorter reply. */
  lemma CutShortIsMalformed(parts: seq<string>, cut: string, missing: string)
    requires |parts| < INT_LIMIT && forall part :: part in parts ==> |part| < INT_LIMIT
    requires cut + missing == Encoded(parts) && missing != ""
    ensures ParseValue(cut).Malformed?
  {
    RoundTrip(parts, "");
    assert Encoded(parts) + "" == cut + missing;
    if ParseValue(cut).Parsed? {
      ValueExtends(cut, missing);
    }
  }

  // The popped messages

  /** `strings`: the bulk strings of a reply. */
  function BulkTexts(items: seq<RespValue>): seq<string> {
    if items == [] then [] else (if items[0].Bulk? then [items[0].text] else []) + BulkTexts(items[1..])
  }

  function Strings(v: RespValue): seq<string> {
    match v
    case Bulk(text) => [text]
    case Array(items) => BulkTexts(items)
    case _ => []
  }

  lemma {:induction false} BulkTextsOfBulks(parts: seq<string>)
    ensures BulkTexts(Bulks(parts)) == parts
  {
    if parts != [] {
      assert Bulks(parts)[1..] == Bulks(parts[1..]);
      BulkTextsOfBulks(parts[1..]);
    }
  }

  lemma {:induction false} BulkTextsAreBulks(items: seq<RespValue>)
    ensures Bulks(BulkTexts(items)) == Select(items, (item: RespValue) => item.Bulk?)
  {
    if items != [] {
      BulkTextsAreBulks(items[1..]);
      if items[0].Bulk? {
        assert Bulks(BulkTexts(items)) == [items[0]] + Bulks(BulkTexts(items[1..]));
      }
    }
  }

  /** Any reply: the bulk strings of an array in their order, whatever else is among them, a bulk string by itself, and
      nothing of other replies. */
  lemma MessagesOfReply(v: RespValue)
    ensures v.Array? ==> Bulks(Strings(v)) == Select(v.items, (item: RespValue) => item.Bulk?)
    ensures v.Bulk? ==> Strings(v) == [v.text]
    ensures !v.Array? && !v.Bulk? ==> Strings(v) == []
  {
    if v.Array? {
      BulkTextsAreBulks(v.items);
    }
  }

  /** The messages of a reply are the messages that were put into it. */
  lemma MessagesRoundTrip(parts: seq<string>, rest: string)
    requires |parts| < INT_LIMIT && forall part :: part in parts ==> |part| < INT_LIMIT
    ensures ParseValue(Encoded(parts) + rest).Parsed? && Strings(ParseValue(Encoded(parts) + rest).value) == parts
  {
    RoundTrip(parts, rest);
    BulkTextsOfBulks(parts);
  }
}
