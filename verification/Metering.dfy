/** From the model's response to the token counts that are charged: the line loop over a stream, the
  choice between reported usage and counted words, and the row it writes. */
module Metering {
  import opened Options
  import opened Requests

  datatype Usage = Usage(prompt: nat, completion: nat)

  /** A line of the response: the end marker, an empty line, a chunk, or something that is no JSON. */
  datatype Line = Done | Empty | Chunk(content: string, usage: Option<Usage>) | Broken

  datatype Charge = ByUsage(usage: Usage) | ByWords(words: nat)

  // ----- words

  /** White space as Unicode defines it. */
  predicate IsSpace(c: char) {
    var u := c as int;
    || 9 <= u <= 13 || u == 0x20 || u == 0x85 || u == 0xA0 || u == 0x1680
    || 0x2000 <= u <= 0x200A || u == 0x2028 || u == 0x2029 || u == 0x202F || u == 0x205F || u == 0x3000
  }

  predicate WordEndsAt(s: string, i: nat)
    requires i < |s|
  {
    !IsSpace(s[i]) && (i + 1 == |s| || IsSpace(s[i + 1]))
  }

  /** How many words the text holds. */
  function Words(s: string): nat {
    if s == [] then 0 else Words(s[1..]) + if WordEndsAt(s, 0) then 1 else 0
  }

  /** A single character is a word unless it is white space: tab to carriage return, the space, and the
      other separators of Unicode. */
  lemma OneCharacter(c: char)
    ensures Words([c]) == if c as int in {9, 10, 11, 12, 13, 32, 133, 160, 5760, 8192, 8193, 8194, 8195, 8196, 8197,
                                          8198, 8199, 8200, 8201, 8202, 8232, 8233, 8239, 8287, 12288}
                          then 0 else 1
  {
  }

  /** A word broken over two chunks counts once. */
  lemma {:induction false} WordsConcat(a: string, b: string)
    ensures Words(a + b) == Words(a) + Words(b)
            - if a != [] && b != [] && !IsSpace(a[|a| - 1]) && !IsSpace(b[0]) then 1 else 0
  {
    if a == [] {
      assert a + b == b;
    } else {
      assert (a + b)[1..] == a[1..] + b;
      WordsConcat(a[1..], b);
    }
  }

  // ----- what a stream is charged for

  /** The first line at which reading stops: the end marker, or a line that does not parse. */
  function StopAt(lines: seq<Line>): (d: nat)
    ensures d <= |lines| && (d < |lines| ==> lines[d].Done? || lines[d].Broken?)
    ensures forall i :: 0 <= i < d ==> !lines[i].Done? && !lines[i].Broken?
  {
    if lines == [] || lines[0].Done? || lines[0].Broken? then 0 else 1 + StopAt(lines[1..])
  }

  function LastUsage(lines: seq<Line>): Option<Usage> {
    if lines == [] then None
    else
      var last := lines[|lines| - 1];
      if last.Chunk? && last.usage.Some? then last.usage else LastUsage(lines[..|lines| - 1])
  }

  /** The text of the chunks that report no usage. */
  function Output(lines: seq<Line>): string {
    if lines == [] then ""
    else
      var last := lines[|lines| - 1];
      Output(lines[..|lines| - 1]) + if last.Chunk? && last.usage.None? then last.content else ""
  }

  function ChargeFor(usage: Option<Usage>, output: string): Charge {
    if usage.Some? then ByUsage(usage.value) else ByWords(Words(output))
  }

  function StreamCharge(lines: seq<Line>): Option<Charge> {
    var d := StopAt(lines);
    if d < |lines| && lines[d].Done? then Some(ChargeFor(LastUsage(lines[..d]), Output(lines[..d]))) else None
  }

  /** A stream is charged exactly when it has an end marker with no broken line before it; a stream
      cut short is charged nothing, whatever usage it reports. */
  lemma ChargedIffEnded(lines: seq<Line>)
    ensures StreamCharge(lines).Some?
       <==> exists d :: 0 <= d < |lines| && lines[d] == Done && Broken !in lines[..d]
  {
    var stop := StopAt(lines);
    if d :| 0 <= d < |lines| && lines[d] == Done && Broken !in lines[..d] {
      assert stop < d ==> lines[..d][stop] == lines[stop];
    }
    if StreamCharge(lines).Some? {
      assert forall i :: 0 <= i < stop ==> lines[..stop][i] == lines[i];
    }
  }

  // -- read off the lines

  /** Line `d` is the end marker that counts: nothing before it ends the stream or breaks it. */
  ghost predicate EndsAt(lines: seq<Line>, d: int) {
    0 <= d < |lines| && lines[d] == Done && forall i :: 0 <= i < d ==> lines[i] != Done && lines[i] != Broken
  }

  ghost predicate BreaksAt(lines: seq<Line>, b: int) {
    0 <= b < |lines| && lines[b] == Broken && forall i :: 0 <= i < b ==> lines[i] != Done && lines[i] != Broken
  }

  predicate Reports(line: Line) {
    line.Chunk? && line.usage.Some?
  }

  /** Line `i` is the last before line `d` that reports usage. */
  ghost predicate LastReport(lines: seq<Line>, d: int, i: int) {
    0 <= i < d <= |lines| && Reports(lines[i]) && forall j :: i < j < d ==> !Reports(lines[j])
  }

  function Content(line: Line): string {
    if line.Chunk? then line.content else ""
  }

  /** The contents of all chunks, one after the other. */
  function Text(lines: seq<Line>): string {
    if lines == [] then "" else Content(lines[0]) + Text(lines[1..])
  }

  lemma StopsAtEnd(lines: seq<Line>, d: int)
    requires EndsAt(lines, d) || BreaksAt(lines, d)
    ensures StopAt(lines) == d
  {
  }

  lemma StopsSomewhere(lines: seq<Line>)
    ensures StopAt(lines) < |lines| ==> EndsAt(lines, StopAt(lines)) || BreaksAt(lines, StopAt(lines))
  {
  }

  lemma {:induction false} LastReportIsLast(lines: seq<Line>, d: nat, i: nat)
    requires LastReport(lines, d, i)
    ensures LastUsage(lines[..d]) == lines[i].usage
  {
    assert lines[..d][..d - 1] == lines[..d - 1];
    if i < d - 1 {
      LastReportIsLast(lines, d - 1, i);
    }
  }

  lemma {:induction false} NoReportNoUsage(lines: seq<Line>)
    requires forall j :: 0 <= j < |lines| ==> !Reports(lines[j])
    ensures LastUsage(lines) == None && Output(lines) == Text(lines)
  {
    if lines != [] {
      var n := |lines| - 1;
      NoReportNoUsage(lines[..n]);
      TextAppend(lines[..n], lines[n]);
      assert lines == lines[..n] + [lines[n]] && !Reports(lines[n]);
    }
  }

  lemma {:induction false} TextAppend(lines: seq<Line>, line: Line)
    ensures Text(lines + [line]) == Text(lines) + Content(line)
  {
    if lines == [] {
      assert lines + [line] == [line];
    } else {
      assert (lines + [line])[1..] == lines[1..] + [line];
      TextAppend(lines[1..], line);
      JoinIsAssociative(Content(lines[0]), Text(lines[1..]), Content(line));
    }
  }

  lemma JoinIsAssociative(a: string, b: string, c: string)
    ensures a + (b + c) == (a + b) + c
  {
  }

  /** A stream that ends is charged for the last usage it reports, or, if it reports none, for the words
      of its text. */
  lemma EndedStreamCharge(lines: seq<Line>, d: int)
    requires EndsAt(lines, d)
    ensures forall i :: LastReport(lines, d, i) ==> StreamCharge(lines) == Some(ByUsage(lines[i].usage.value))
    ensures (forall j :: 0 <= j < d ==> !Reports(lines[j])) ==>
              StreamCharge(lines) == Some(ByWords(Words(Text(lines[..d]))))
  {
    StopsAtEnd(lines, d);
    forall i | LastReport(lines, d, i)
      ensures LastUsage(lines[..d]) == lines[i].usage
    {
      LastReportIsLast(lines, d, i);
    }
    if forall j :: 0 <= j < d ==> !Reports(lines[j]) {
      NoReportNoUsage(lines[..d]);
    }
  }

  lemma StreamIsRead(lines: seq<Line>)
    ensures forall d, i :: EndsAt(lines, d) && LastReport(lines, d, i) ==>
              StreamCharge(lines) == Some(ByUsage(lines[i].usage.value))
    ensures forall d :: EndsAt(lines, d) && (forall j :: 0 <= j < d ==> !Reports(lines[j])) ==>
              StreamCharge(lines) == Some(ByWords(Words(Text(lines[..d]))))
    ensures StreamCharge(lines) == None <==> forall d :: !EndsAt(lines, d)
    ensures (StopAt(lines) < |lines| && lines[StopAt(lines)].Broken?) <==> exists b :: BreaksAt(lines, b)
  {
    forall d | EndsAt(lines, d) {
      EndedStreamCharge(lines, d);
    }
    StopsSomewhere(lines);
    forall d | EndsAt(lines, d) || BreaksAt(lines, d)
      ensures StopAt(lines) == d
    {
      StopsAtEnd(lines, d);
    }
  }

  method DecodeStream(lines: seq<Line>) returns (charge: Option<Charge>, failed: bool)
    ensures charge == StreamCharge(lines)
    ensures forall d, i :: EndsAt(lines, d) && LastReport(lines, d, i) ==> charge == Some(ByUsage(lines[i].usage.value))
    ensures forall d :: EndsAt(lines, d) && (forall j :: 0 <= j < d ==> !Reports(lines[j])) ==>
              charge == Some(ByWords(Words(Text(lines[..d]))))
    ensures charge == None <==> forall d :: !EndsAt(lines, d)
    ensures failed <==> exists b :: BreaksAt(lines, b)
    ensures failed == (StopAt(lines) < |lines| && lines[StopAt(lines)].Broken?)
  {
    StreamIsRead(lines);
    var output, usage := "", None;
    ghost var d := StopAt(lines);
    for i := 0 to |lines|
      invariant i <= d && usage == LastUsage(lines[..i]) && output == Output(lines[..i])
    {
      var line := lines[i];
      assert lines[..i + 1][..i] == lines[..i];
      match line
      case Done =>
        assert d == i;
        return Some(ChargeFor(usage, output)), false;
      case Empty =>
      case Broken =>
        assert d == i;
        return None, true;
      case Chunk(content, reported) =>
        if reported.Some? {
          usage := reported;
        } else {
          output := output + content;
        }
    }
    return None, false;
  }

  function ApplyCharge(rows: seq<Request>, hash: Hash, prices: Prices, charge: Option<Charge>): seq<Request> {
    match charge
    case None => rows
    case Some(ByUsage(usage)) => WriteUsage(rows, hash, prices, usage.prompt, usage.completion)
    case Some(ByWords(words)) => WriteOutput(rows, hash, prices, words)
  }

  /** The error of the word count: the request has no row whose input fee parses. */
  predicate CannotCount(rows: seq<Request>, hash: Hash, charge: Option<Charge>) {
    && charge.Some? && charge.value.ByWords?
    && !exists r :: r in rows && r.hash == hash && r.inputFee.Value?
  }

  /** What the response is charged for, and whether it breaks off or is no JSON. */
  function ChargeOf(isStream: bool, lines: seq<Line>): Option<Charge>
    requires !isStream ==> |lines| == 1
  {
    if isStream then StreamCharge(lines)
    else if lines[0].Chunk? then Some(ChargeFor(lines[0].usage, lines[0].content))
    else None
  }

  predicate Undecodable(isStream: bool, lines: seq<Line>)
    requires !isStream ==> |lines| == 1
  {
    if isStream then StopAt(lines) < |lines| && lines[StopAt(lines)].Broken? else !lines[0].Chunk?
  }

  /** The row of the request, when it is the first response to it, holds these counts and their exact
      price; the rows of other requests are as they were. */
  ghost predicate ChargedFor(before: seq<Request>, after: seq<Request>, hash: Hash, prices: Prices,
        prompt: nat, completion: nat)
  {
    && |after| == |before|
    && (forall k :: 0 <= k < |before| && before[k].hash != hash ==> after[k] == before[k])
    && (forall k :: 0 <= k < |before| && before[k].hash == hash && Fresh(before[k]) ==>
          && SameRequest(before[k], after[k])
          && after[k].inputCount == prompt && after[k].outputCount == completion
          && after[k].fee == Value(prices.input * prompt + prices.output * completion))
  }

  ghost predicate HasCountableRow(rows: seq<Request>, hash: Hash) {
    exists r :: r in rows && r.hash == hash && r.inputFee.Value?
  }

  lemma RowsAreCharged(rows: seq<Request>, hash: Hash, prices: Prices, charge: Charge)
    ensures ChargedFor(rows, ApplyCharge(rows, hash, prices, Some(charge)), hash, prices,
              if charge.ByUsage? then charge.usage.prompt else 0,
              if charge.ByUsage? then charge.usage.completion else charge.words)
  {
    forall k | 0 <= k < |rows| && rows[k].hash == hash && Fresh(rows[k]) {
      FirstChargeIsExact(rows, hash, prices, charge, k);
    }
  }

  /** A stream is charged for the last usage it reports before its end marker, or, without one, for the
      words of its text; a response in one piece for its usage or its words.  A stream without an end
      marker, and a response that does not parse, leave the table alone. */
  method DecodeAndProcess(db: RequestDb, hash: Hash, prices: Prices, isStream: bool, lines: seq<Line>)
      returns (failed: bool)
    requires !isStream ==> |lines| == 1
    requires Keyed(db.rows)
    modifies db
    ensures db.rows == ApplyCharge(old(db.rows), hash, prices, ChargeOf(isStream, lines))
    ensures failed <==> Undecodable(isStream, lines) || CannotCount(old(db.rows), hash, ChargeOf(isStream, lines))
    ensures isStream ==> forall d, i :: EndsAt(lines, d) && LastReport(lines, d, i) ==>
              var usage := lines[i].usage.value;
              !failed && ChargedFor(old(db.rows), db.rows, hash, prices, usage.prompt, usage.completion)
    ensures isStream ==> forall d :: EndsAt(lines, d) && (forall j :: 0 <= j < d ==> !Reports(lines[j])) ==>
              && failed == !HasCountableRow(old(db.rows), hash)
              && ChargedFor(old(db.rows), db.rows, hash, prices, 0, Words(Text(lines[..d])))
    ensures isStream && (forall d :: !EndsAt(lines, d)) ==>
              db.rows == old(db.rows) && failed == exists b :: BreaksAt(lines, b)
    ensures !isStream && lines[0].Chunk? ==>
              match lines[0].usage
              case Some(usage) =>
                !failed && ChargedFor(old(db.rows), db.rows, hash, prices, usage.prompt, usage.completion)
              case None =>
                && failed == !HasCountableRow(old(db.rows), hash)
                && ChargedFor(old(db.rows), db.rows, hash, prices, 0, Words(lines[0].content))
    ensures !isStream && !lines[0].Chunk? ==> failed && db.rows == old(db.rows)
  {
    StreamIsRead(lines);
    var charge;
    if isStream {
      charge, failed := DecodeStream(lines);
    } else {
      charge, failed := DecodeSingle(lines[0]);
    }
    if charge.Some? {
      RowsAreCharged(db.rows, hash, prices, charge.value);
    }
    match charge
    case None =>
    case Some(ByUsage(usage)) => db.UpdateAccountWithUsage(hash, prices, usage.prompt, usage.completion);
    case Some(ByWords(words)) =>
      var ok := db.UpdateAccountWithOutput(hash, prices, words);
      failed := failed || !ok;
  }

  method DecodeSingle(line: Line) returns (charge: Option<Charge>, failed: bool)
    ensures charge == ChargeOf(false, [line]) && failed == Undecodable(false, [line])
  {
    if !line.Chunk? {
      return None, true;
    }
    if line.usage.Some? {
      return Some(ByUsage(line.usage.value)), false;
    }
    return Some(ByWords(Words(line.content))), false;
  }

  predicate Fresh(r: Request) {
    r.inputFee == Value(0) && r.fee == Value(0) && r.inputCount == 0 && r.outputCount == 0
  }

  lemma NewRequestIsFresh(hash: Hash, user: User, at: nat)
    ensures Fresh(NewRequest(hash, user, at))
  {
  }

  /** The first response to a request leaves its row with the charged counts and their exact price. */
  lemma FirstChargeIsExact(rows: seq<Request>, hash: Hash, prices: Prices, charge: Charge, k: nat)
    requires k < |rows| && rows[k].hash == hash && Fresh(rows[k])
    ensures var r := ApplyCharge(rows, hash, prices, Some(charge))[k];
            && FeeLaw(r, prices)
            && r.fee == Value(prices.input * r.inputCount + prices.output * r.outputCount)
            && r.inputCount == (if charge.ByUsage? then charge.usage.prompt else 0)
            && r.outputCount == if charge.ByUsage? then charge.usage.completion else charge.words
  {
    assert prices.input * 0 == 0 && prices.output * 0 == 0;
  }
}
