/** Reading a message after DATA: line by line, unstuffing dots, up to the final dot line. */
module LmtpData {
  import opened Options
  import Text

  type Bytes = string   // one char is one byte

  const CRLF := "\r\n"
  const FINAL_LINE := ".\r\n"

  // ---------- lines ----------

  function FirstNewline(s: Bytes, from: nat): (k: nat)
    requires from <= |s|
    ensures from <= k <= |s|
    ensures forall i :: from <= i < k ==> s[i] != '\n'
    ensures k < |s| ==> s[k] == '\n'
    decreases |s| - from
  {
    if from == |s| || s[from] == '\n' then from else FirstNewline(s, from + 1)
  }

  predicate HasLine(s: Bytes) {
    FirstNewline(s, 0) < |s|
  }

  /** The line with its newline. */
  function Line(s: Bytes): Bytes
    requires HasLine(s)
  {
    s[..FirstNewline(s, 0) + 1]
  }

  function AfterLine(s: Bytes): Bytes
    requires HasLine(s)
  {
    s[FirstNewline(s, 0) + 1..]
  }

  const LINE_BREAKS := {'\r', '\n'}

  predicate Breaks(line: Bytes, from: nat) {
    forall i :: from <= i < |line| ==> line[i] == '\r' || line[i] == '\n'
  }

  /** A dot and nothing but carriage returns and newlines: the line is "." when these are trimmed. */
  predicate EndsMessage(line: Bytes) {
    line != [] && line[0] == '.' && Breaks(line, 1)
  }

  lemma EndsMessageIffTrimmed(line: Bytes)
    ensures EndsMessage(line) <==> Text.TrimRight(line, LINE_BREAKS) == "."
  {
    var trimmed := Text.TrimRight(line, LINE_BREAKS);
    Text.TrimRightMeans(line, LINE_BREAKS);
    assert |trimmed| > 1 ==> trimmed[|trimmed| - 1] == line[|trimmed| - 1];
    if EndsMessage(line) {
      assert |trimmed| == 1;
      assert trimmed == ".";
    }
  }

  function Unstuffed(line: Bytes): Bytes {
    if |line| >= 2 && line[0] == '.' && line[1] == '.' then line[1..] else line
  }

  // ---------- the reader ----------

  /** The message and the input that is left, or nothing when the input ends too early. */
  datatype Reading = Reading(raw: Bytes, oversized: bool, rest: Bytes) | Broken(oversized: bool)

  /**
    Reading on when `raw` is collected: a line that does not fit is skipped and marks the message
    as oversized, but shorter lines after it may still be appended.
   */
  function Read(input: Bytes, raw: Bytes, oversized: bool, max: nat): Reading
    decreases |input|
  {
    if !HasLine(input) then Broken(oversized)
    else if EndsMessage(Line(input)) then Reading(raw, oversized, AfterLine(input))
    else
      var line := Unstuffed(Line(input));
      if |raw| + |line| > max then Read(AfterLine(input), raw, true, max)
      else Read(AfterLine(input), raw + line, oversized, max)
  }

  // ---------- what any input gives ----------

  function Concat(lines: seq<Bytes>): Bytes {
    if lines == [] then [] else lines[0] + Concat(lines[1..])
  }

  /** A line as the input holds it: its only newline is its last byte. */
  predicate IsLine(line: Bytes) {
    line != [] && FirstNewline(line, 0) == |line| - 1
  }

  lemma FirstNewlineIs(s: Bytes, from: nat, k: nat)
    requires from <= k < |s| && s[k] == '\n' && forall i :: from <= i < k ==> s[i] != '\n'
    ensures FirstNewline(s, from) == k
  {
  }

  lemma LineThenRest(line: Bytes, rest: Bytes)
    requires IsLine(line)
    ensures HasLine(line + rest) && Line(line + rest) == line && AfterLine(line + rest) == rest
  {
    FirstNewlineIs(line + rest, 0, |line| - 1);
  }

  lemma LineIsLine(s: Bytes)
    requires HasLine(s)
    ensures IsLine(Line(s)) && s == Line(s) + AfterLine(s)
  {
    FirstNewlineIs(Line(s), 0, |Line(s)| - 1);
  }

  /** The bytes of the unstuffed lines that fit, each in its turn. */
  function Fitting(lines: seq<Bytes>, raw: Bytes, max: nat): Bytes {
    if lines == [] then raw
    else
      var line := Unstuffed(lines[0]);
      Fitting(lines[1..], if |raw| + |line| > max then raw else raw + line, max)
  }

  function Decoded(lines: seq<Bytes>): Bytes {
    if lines == [] then [] else Unstuffed(lines[0]) + Decoded(lines[1..])
  }

  /** What one more line does to the reading. */
  lemma ReadNext(input: Bytes, raw: Bytes, oversized: bool, max: nat)
    ensures Read(input, raw, oversized, max)
            == if !HasLine(input) then Broken(oversized)
               else if EndsMessage(Line(input)) then Reading(raw, oversized, AfterLine(input))
               else if |raw| + |Unstuffed(Line(input))| > max then Read(AfterLine(input), raw, true, max)
               else Read(AfterLine(input), raw + Unstuffed(Line(input)), oversized, max)
  {
  }

  /** Some unstuffed line does not fit behind those that did. */
  predicate Overflows(lines: seq<Bytes>, raw: Bytes, max: nat) {
    lines != [] &&
    var line := Unstuffed(lines[0]);
    if |raw| + |line| > max then true else Overflows(lines[1..], raw + line, max)
  }

  predicate BodyLines(lines: seq<Bytes>) {
    forall k :: 0 <= k < |lines| ==> IsLine(lines[k]) && !EndsMessage(lines[k])
  }

  /** Reading lines that do not end the message, then one that does. */
  lemma {:induction false} ReadLines(lines: seq<Bytes>, final: Bytes, rest: Bytes, raw: Bytes, oversized: bool, max: nat)
    requires BodyLines(lines) && IsLine(final) && EndsMessage(final)
    ensures Read(Concat(lines) + final + rest, raw, oversized, max)
            == Reading(Fitting(lines, raw, max), oversized || Overflows(lines, raw, max), rest)
  {
    if lines == [] {
      assert Concat(lines) + final + rest == final + rest;
      LineThenRest(final, rest);
      ReadNext(final + rest, raw, oversized, max);
    } else {
      var line, after := Unstuffed(lines[0]), Concat(lines[1..]) + final + rest;
      assert Concat(lines) + final + rest == lines[0] + after;
      LineThenRest(lines[0], after);
      ReadNext(lines[0] + after, raw, oversized, max);
      assert BodyLines(lines[1..]);
      if |raw| + |line| > max {
        ReadLines(lines[1..], final, rest, raw, true, max);
      } else {
        ReadLines(lines[1..], final, rest, raw + line, oversized, max);
      }
    }
  }

  /** Lines overflow exactly when together they are too long; otherwise all of them fit. */
  lemma {:induction false} FitOrOverflow(lines: seq<Bytes>, raw: Bytes, max: nat)
    requires |raw| <= max
    ensures Overflows(lines, raw, max) <==> |raw| + |Decoded(lines)| > max
    ensures !Overflows(lines, raw, max) ==> Fitting(lines, raw, max) == raw + Decoded(lines)
    ensures |Fitting(lines, raw, max)| <= max
  {
    if lines == [] {
      assert raw + Decoded(lines) == raw;
    } else {
      var line := Unstuffed(lines[0]);
      if |raw| + |line| > max {
        FitOrOverflow(lines[1..], raw, max);
      } else {
        FitOrOverflow(lines[1..], raw + line, max);
        assert raw + line + Decoded(lines[1..]) == raw + Decoded(lines);
      }
    }
  }

  /** How the input splits up to its first final line; None when no line of it is final. */
  function Split(input: Bytes): Option<(seq<Bytes>, Bytes, Bytes)>
    decreases |input|
  {
    if !HasLine(input) then None
    else if EndsMessage(Line(input)) then Some(([], Line(input), AfterLine(input)))
    else match Split(AfterLine(input))
      case None => None
      case Some((lines, final, rest)) => Some(([Line(input)] + lines, final, rest))
  }

  lemma {:induction false} SplitIsExact(input: Bytes)
    ensures Split(input).Some? ==>
              var (lines, final, rest) := Split(input).value;
              && input == Concat(lines) + final + rest
              && IsLine(final) && EndsMessage(final)
              && BodyLines(lines)
    decreases |input|
  {
    if HasLine(input) {
      var line, after := Line(input), AfterLine(input);
      LineIsLine(input);
      if EndsMessage(line) {
        assert Concat([]) + line + after == input;
      } else {
        SplitIsExact(after);
        if Split(after).Some? {
          var (lines, final, rest) := Split(after).value;
          assert ([line] + lines)[1..] == lines;
          assert line + (Concat(lines) + final + rest) == (line + Concat(lines)) + final + rest;
        }
      }
    }
  }

  lemma {:induction false} BrokenIffNoFinalLine(input: Bytes, raw: Bytes, oversized: bool, max: nat)
    ensures Read(input, raw, oversized, max).Broken? <==> Split(input).None?
    decreases |input|
  {
    if HasLine(input) && !EndsMessage(Line(input)) {
      var line := Unstuffed(Line(input));
      if |raw| + |line| > max {
        BrokenIffNoFinalLine(AfterLine(input), raw, true, max);
      } else {
        BrokenIffNoFinalLine(AfterLine(input), raw + line, oversized, max);
      }
    }
  }

  /**
    Every input: a message is read exactly when some line is final; reading stops right after the
    first such line; the message is oversized exactly when its unstuffed lines are together
    longer than the limit; and if it is not, they are what is returned.
   */
  lemma ReadStopsAtTheFinalLine(input: Bytes, max: nat)
    ensures var r := Read(input, [], false, max);
            match Split(input)
            case None => r.Broken?
            case Some((lines, final, rest)) =>
              && input == Concat(lines) + final + rest
              && r.Reading? && r.rest == rest && |r.raw| <= max
              && (r.oversized <==> |Decoded(lines)| > max)
              && (!r.oversized ==> r.raw == Decoded(lines))
  {
    BrokenIffNoFinalLine(input, [], false, max);
    SplitIsExact(input);
    if Split(input).Some? {
      var (lines, final, rest) := Split(input).value;
      ReadLines(lines, final, rest, [], false, max);
      FitOrOverflow(lines, [], max);
      assert [] + Decoded(lines) == Decoded(lines);
    }
  }

  // ---------- stuffing ----------

  /** A line of a message, without its CRLF; section 4.5.2 of RFC 5321 doubles its first dot. */
  function Stuffed(text: Bytes): Bytes {
    (if text != [] && text[0] == '.' then "." + text else text) + CRLF
  }

  /** The message that the lines make up. */
  function Message(texts: seq<Bytes>): Bytes {
    if texts == [] then [] else texts[0] + CRLF + Message(texts[1..])
  }

  function StuffedMessage(texts: seq<Bytes>): Bytes {
    if texts == [] then [] else Stuffed(texts[0]) + StuffedMessage(texts[1..])
  }

  predicate NoNewline(text: Bytes) {
    forall i :: 0 <= i < |text| ==> text[i] != '\n'
  }

  lemma StuffedLine(text: Bytes)
    requires NoNewline(text)
    ensures IsLine(Stuffed(text)) && !EndsMessage(Stuffed(text)) && Unstuffed(Stuffed(text)) == text + CRLF
  {
    var line := Stuffed(text);
    FirstNewlineIs(line, 0, |line| - 1);
    if text != [] && text[0] == '.' {
      assert line[1] == '.';
      assert Unstuffed(line) == text + CRLF;
    }
  }

  function StuffedLines(texts: seq<Bytes>): (lines: seq<Bytes>)
    ensures |lines| == |texts| && forall k :: 0 <= k < |texts| ==> lines[k] == Stuffed(texts[k])
  {
    if texts == [] then [] else [Stuffed(texts[0])] + StuffedLines(texts[1..])
  }

  lemma {:induction false} StuffedMessageIsLines(texts: seq<Bytes>)
    requires forall k :: 0 <= k < |texts| ==> NoNewline(texts[k])
    ensures Concat(StuffedLines(texts)) == StuffedMessage(texts)
    ensures Decoded(StuffedLines(texts)) == Message(texts)
  {
    if texts != [] {
      StuffedMessageIsLines(texts[1..]);
      assert StuffedLines(texts)[1..] == StuffedLines(texts[1..]);
      StuffedLine(texts[0]);
    }
  }

  /**
    Any message of CRLF-terminated lines survives stuffing and reading, whatever follows it: the
    reader stops exactly after the final line, and it returns the original bytes unless they are
    more than the limit, which is precisely when it reports them as oversized.
   */
  lemma StuffingRoundTrip(texts: seq<Bytes>, rest: Bytes, max: nat)
    requires forall k :: 0 <= k < |texts| ==> NoNewline(texts[k])
    ensures var r := Read(StuffedMessage(texts) + FINAL_LINE + rest, [], false, max);
            && r.Reading? && r.rest == rest
            && (r.oversized <==> |Message(texts)| > max)
            && (!r.oversized ==> r.raw == Message(texts))
  {
    var lines := StuffedLines(texts);
    StuffedMessageIsLines(texts);
    forall k | 0 <= k < |lines|
      ensures IsLine(lines[k]) && !EndsMessage(lines[k])
    {
      StuffedLine(texts[k]);
    }
    FirstNewlineIs(FINAL_LINE, 0, 2);
    ReadLines(lines, FINAL_LINE, rest, [], false, max);
    FitOrOverflow(lines, [], max);
    assert [] + Decoded(lines) == Decoded(lines);
  }

  // ---------- where the reader departs from the standard ----------

  /** The receiver's rule of section 4.5.2: a leading dot that is not the whole line is deleted. */
  function StandardUnstuffed(line: Bytes): Bytes {
    if line != [] && line[0] == '.' then line[1..] else line
  }

  /** The reader agrees with that rule unless a line starts with a dot that was not doubled. */
  lemma UnstuffsAsTheStandardIff(line: Bytes)
    ensures Unstuffed(line) == StandardUnstuffed(line)
            <==> (line != [] && line[0] == '.' ==> |line| >= 2 && line[1] == '.')
    ensures if line != [] && line[0] == '.' && |line| >= 2 && line[1] == '.' then line == "." + Unstuffed(line) else Unstuffed(line) == line
  {
    if line != [] && line[0] == '.' { assert |line[1..]| < |line|; }
  }

  // ---------- the session ----------

  class Session {
    var input: Bytes      // what the connection has still to deliver
    const maxBytes: nat

    constructor (input: Bytes, maxBytes: nat)
      ensures this.input == input && this.maxBytes == maxBytes
    {
      this.input, this.maxBytes := input, maxBytes;
    }

    /** The next line with its newline; None when the input ends first. */
    method ReadString() returns (line: Option<Bytes>)
      modifies this`input
      ensures line == if HasLine(old(input)) then Some(Line(old(input))) else None
      ensures input == if HasLine(old(input)) then AfterLine(old(input)) else []
    {
      var k := 0;
      while k < |input| && input[k] != '\n'
        invariant 0 <= k <= |input| && forall i :: 0 <= i < k ==> input[i] != '\n'
      {
        k := k + 1;
      }
      if k == |input| {
        line, input := None, [];
      } else {
        FirstNewlineIs(input, 0, k);
        line, input := Some(input[..k + 1]), input[k + 1..];
      }
    }

    method ReadData() returns (raw: Option<Bytes>, oversized: bool)
      modifies this`input
      ensures match Read(old(input), [], false, maxBytes)
              case Reading(data, big, rest) => raw == Some(data) && oversized == big && input == rest
              case Broken(big) => raw == None && oversized == big
    {
      ghost var result := Read(input, [], false, maxBytes);
      var data: Bytes := [];
      oversized := false;
      while true
        invariant Read(input, data, oversized, maxBytes) == result
        decreases |input|
      {
        ReadNext(input, data, oversized, maxBytes);
        var next := ReadString();
        if next == None { return None, oversized; }
        var line := next.value;
        EndsMessageIffTrimmed(line);
        if Text.TrimRight(line, LINE_BREAKS) == "." { break; }
        if |line| >= 2 && line[0] == '.' && line[1] == '.' { line := line[1..]; }
        if |data| + |line| > maxBytes {
          oversized := true;
          continue;
        }
        data := data + line;
      }
      raw := Some(data);
    }
  }
}
