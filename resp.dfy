/**
 * The RESP2 codec of `RESPParser`: the reply encoders, the line-based
 * decoder for request arrays and the simple-string decoder used on the
 * master's handshake replies.
 *
 * A request is read the way `std::getline` reads an `std::istringstream`
 * whose read position is `pos`: `GetLine` yields the text from `pos` up to
 * the next '\n' and the position after it, and one trailing '\r' is then
 * dropped.  The decoder's meaning is given in two layers: `Elements`
 * lists, for every bulk string the loop accepts, its declared length and
 * its CR-stripped payload line; `Decode` then keeps each payload, cut to
 * the declared length when `truncate` holds (this parser) or as it is
 * (the older parser in `Legacy`).
 */
module Resp {
  import opened CLib

  const CRLF: string := "\r\n"

  // ---------------------------------------------------------------------
  // Encoders

  function EncodeSimpleString(s: string): string { "+" + s + CRLF }

  function EncodeBulkString(s: string): string { "$" + NatToString(|s|) + CRLF + s + CRLF }

  function EncodeError(e: string): string { "-" + e + CRLF }

  function EncodeNull(): string { "$-1\r\n" }

  /** The bulk encodings of `items`, concatenated in order. */
  function BulkFrames(items: seq<string>): string
  {
    if items == [] then "" else EncodeBulkString(items[0]) + BulkFrames(items[1..])
  }

  /** The array reply `encodeArray` builds. */
  function ArrayFrame(items: seq<string>): string
  {
    "*" + NatToString(|items|) + CRLF + BulkFrames(items)
  }

  /** `encodeArray`: the header, then one bulk string per item appended in a loop. */
  method EncodeArray(items: seq<string>) returns (result: string)
    ensures result == ArrayFrame(items)
  {
    result := "*" + NatToString(|items|) + CRLF;
    ghost var header := result;
    for i := 0 to |items|
      invariant result == header + BulkFrames(items[..i])
    {
      BulkFramesSnoc(items[..i], items[i]);
      assert items[..i + 1] == items[..i] + [items[i]];
      result := result + EncodeBulkString(items[i]);
    }
    assert items[..|items|] == items;
  }

  // ---------------------------------------------------------------------
  // Reading lines

  /** The text of `data` from `pos` up to the next '\n', or to the end when there is none. */
  function LineAt(data: string, pos: nat): (line: string)
    requires pos <= |data|
    ensures pos + |line| <= |data|
    ensures pos + |line| < |data| ==> data[pos + |line|] == '\n'
    decreases |data| - pos
  {
    if pos == |data| || data[pos] == '\n' then [] else [data[pos]] + LineAt(data, pos + 1)
  }

  /** The line at `pos` is the text of `data` from `pos` on: with `LineAt`'s own contract it runs up to the first '\n' or to the end. */
  lemma {:induction false} LineAtIsText(data: string, pos: nat)
    requires pos <= |data|
    ensures LineAt(data, pos) == data[pos..pos + |LineAt(data, pos)|]
    decreases |data| - pos
  {
    if pos < |data| && data[pos] != '\n' {
      LineAtIsText(data, pos + 1);
      var rest := LineAt(data, pos + 1);
      assert data[pos..pos + 1 + |rest|] == [data[pos]] + data[pos + 1..pos + 1 + |rest|];
    }
  }

  /**
   * `std::getline` on a stream over `data` at read position `pos`: `None`
   * when nothing is left, otherwise the line from `pos` to the next '\n'
   * and the position after that '\n' (the end when there is none).
   */
  function GetLine(data: string, pos: nat): (r: Option<(string, nat)>)
    requires pos <= |data|
    ensures r.None? <==> pos == |data|
    ensures r.Some? ==> pos < r.value.1 <= |data|
  {
    if pos == |data| then None
    else
      var line := LineAt(data, pos);
      var end := pos + |line|;
      Some((line, if end < |data| then end + 1 else end))
  }

  /** Drops one trailing '\r' (the `pop_back` after each `getline`). */
  function StripCR(line: string): string
  {
    if line != [] && line[|line| - 1] == '\r' then line[..|line| - 1] else line
  }

  /**
   * `line.substr(0, length)` with `length` an `int` converted to `size_t`:
   * a negative length becomes huge and keeps the whole line.
   */
  function Truncate(line: string, length: int): string
  {
    if 0 <= length < |line| then line[..length] else line
  }

  // ---------------------------------------------------------------------
  // Decoding a request array

  /** One bulk string as read: the declared length and the CR-stripped payload line. */
  datatype Bulk = Bulk(declared: int, payload: string)

  /** Prefixes the bulk strings already read to the outcome of reading the rest. */
  function Prepend(done: seq<Bulk>, rest: Outcome<seq<Bulk>>): Outcome<seq<Bulk>>
  {
    match rest
    case Threw => Threw
    case Done(more) => Done(done + more)
  }

  /**
   * The lines `std::getline` yields, in order, from position `pos` of a
   * stream over `data` until it fails.  Each call of `GetLine` consumes the
   * head of this sequence.
   */
  function Lines(data: string, pos: nat): seq<string>
    requires pos <= |data|
    decreases |data| - pos, 1
  {
    if pos == |data| then [] else LinesFrom(data, pos)
  }

  /** `Lines` when something is left: the line `GetLine` yields, then the lines after it. */
  function LinesFrom(data: string, pos: nat): seq<string>
    requires pos < |data|
    decreases |data| - pos, 0
  {
    var (line, next) := GetLine(data, pos).value;
    [line] + Lines(data, next)
  }

  /** A line `parseArray` accepts as a header: non-empty and starting with `tag`. */
  predicate IsHeader(line: string, tag: char)
  {
    line != [] && line[0] == tag
  }

  /** The number after a header's tag, read by `stoi` once the '\r' is dropped. */
  function HeaderValue(line: string): Outcome<int>
    requires line != [] && line[0] != '\r'
  {
    StoI(HeaderText(line))
  }

  /** The text after a header's tag, once the '\r' is dropped: what `stoi` reads. */
  function HeaderText(line: string): string
    requires line != [] && line[0] != '\r'
  {
    StripCR(line)[1..]
  }

  /**
   * What the loop reads from the remaining `lines` when `n` more bulk
   * strings are declared: it stops at a missing line or at a header that
   * does not start with '$'.
   */
  function Bulks(lines: seq<string>, n: int): Outcome<seq<Bulk>>
    decreases |lines|, 1
  {
    if n <= 0 || lines == [] || !IsHeader(lines[0], '$') then Done([]) else BulkAt(lines, n)
  }

  /**
   * One bulk string from a header starting with '$': `stoi` on its length,
   * which throws when it rejects it, then the payload line; a missing
   * payload line ends the array once the length has been read.
   */
  function BulkAt(lines: seq<string>, n: int): Outcome<seq<Bulk>>
    requires lines != [] && IsHeader(lines[0], '$')
    decreases |lines|, 0
  {
    match HeaderValue(lines[0])
    case Threw => Threw
    case Done(length) =>
      if |lines| == 1 then Done([])
      else Prepend([Bulk(length, StripCR(lines[1]))], Bulks(lines[2..], n - 1))
  }

  /**
   * What `parseArray` reads from `data`: nothing when the first line is
   * missing, empty or does not start with '*', otherwise the bulk strings
   * that follow, up to the header's declared count.
   */
  function Elements(data: string): Outcome<seq<Bulk>>
  {
    var lines := Lines(data, 0);
    if lines == [] || !IsHeader(lines[0], '*') then Done([])
    else match HeaderValue(lines[0])
      case Threw => Threw
      case Done(n) => Bulks(lines[1..], n)
  }

  /** The strings a parser returns for the bulk strings it read. */
  function Payloads(bulks: seq<Bulk>, truncate: bool): (r: seq<string>)
    ensures |r| == |bulks|
  {
    seq(|bulks|, i requires 0 <= i < |bulks| => Payload(bulks[i], truncate))
  }

  /** The string a parser returns for one bulk string. */
  function Payload(b: Bulk, truncate: bool): string
  {
    if truncate then Truncate(b.payload, b.declared) else b.payload
  }

  function Decode(data: string, truncate: bool): Outcome<seq<string>>
  {
    Convert(Elements(data), truncate)
  }

  /** The strings a parser returns for what it read, or the exception that ended it. */
  function Convert(read: Outcome<seq<Bulk>>, truncate: bool): Outcome<seq<string>>
  {
    match read
    case Threw => Threw
    case Done(bulks) => Done(Payloads(bulks, truncate))
  }

  /** The count the first line declares, when `parseArray` reads one. */
  function DeclaredCount(data: string): Option<int>
  {
    var lines := Lines(data, 0);
    if lines == [] || !IsHeader(lines[0], '*') then None
    else match HeaderValue(lines[0])
      case Threw => None
      case Done(n) => Some(n)
  }

  /** How one turn of the loop ends. */
  datatype Turn =
    | Stop            // `break`: no header line, a header not starting with '$', or no payload line
    | Throws          // `stoi` rejected the length
    | Got(bulk: Bulk) // a header and its payload line were read

  /**
   * The body of the loop in `parseArray`: `getline` for the header, the
   * '$' test, `stoi` on its length, `getline` for the payload; every
   * '\r' is dropped.  `next` is the read position afterwards.
   */
  method ReadBulk(data: string, pos: nat, ghost n: int) returns (t: Turn, next: nat)
    requires pos <= |data| && n > 0
    ensures next <= |data|
    ensures t.Stop? ==> Bulks(Lines(data, pos), n) == Done([])
    ensures t.Throws? ==> Bulks(Lines(data, pos), n) == Threw
    ensures t.Got? ==> Bulks(Lines(data, pos), n) == Prepend([t.bulk], Bulks(Lines(data, next), n - 1))
  {
    next := pos;
    var got := GetLine(data, pos);
    if got.None? {
      return Stop, next;
    }
    LinesStep(data, pos);
    var line;
    line, next := got.value.0, got.value.1;
    ghost var header := line;
    if line == [] || line[0] != '$' {
      return Stop, next;
    }
    line := StripCR(line);
    var length := StoI(line[1..]);
    if length.Threw? {
      BulksThrow(Lines(data, pos), header, n);
      return Throws, next;
    }
    got := GetLine(data, next);
    if got.None? {
      BulksLast(Lines(data, pos), header, n);
      return Stop, next;
    }
    LinesStep(data, next);
    ghost var payload := got.value.0;
    ghost var after := got.value.1;
    BulksNext(Lines(data, pos), header, payload, Lines(data, after), n);
    line, next := StripCR(got.value.0), got.value.1;
    t := Got(Bulk(length.value, line));
  }

  /** How reading the first line ends. */
  datatype Header =
    | NotArray           // no line, an empty line or one not starting with '*': an empty result
    | BadCount           // `stoi` rejected the count
    | Count(count: int)  // the declared number of elements

  /** The first lines of `parseArray`: `getline`, the '*' test, the '\r' dropped, `stoi` on the count. */
  method ReadHeader(data: string) returns (h: Header, pos: nat)
    ensures pos <= |data|
    ensures h.NotArray? ==> Elements(data) == Done([])
    ensures h.BadCount? ==> Elements(data) == Threw
    ensures h.Count? ==> Elements(data) == Bulks(Lines(data, pos), h.count)
  {
    pos := 0;
    var got := GetLine(data, pos);
    if got.None? || got.value.0 == [] || got.value.0[0] != '*' {
      if got.Some? {
        LinesStep(data, pos);
      }
      return NotArray, pos;
    }
    var line;
    line, pos := got.value.0, got.value.1;
    ghost var header := line;
    line := StripCR(line);
    var count := StoI(line[1..]);
    if count.Threw? {
      ElementsThrow(data, header, pos);
      return BadCount, pos;
    }
    ElementsAfterHeader(data, header, pos, count.value);
    PrependNothing(Bulks(Lines(data, pos), count.value));
    h := Count(count.value);
  }

  /** `parseArray`: reads the array header, then one bulk string per turn of a `for` loop. */
  method ParseArray(data: string) returns (r: Outcome<seq<string>>)
    ensures r == Decode(data, true)
  {
    var h: Header, pos: nat := ReadHeader(data);
    if h.NotArray? {
      assert Payloads([], true) == [];
      return Done([]);
    } else if h.BadCount? {
      return Threw;
    }
    r := ReadElements(data, pos, h.count, true);
  }

  /**
   * The `for` loop of `parseArray`, from read position `pos` with
   * `numElements` declared; `truncate` says whether payloads are cut to
   * their declared length.
   */
  method ReadElements(data: string, pos: nat, numElements: int, truncate: bool) returns (r: Outcome<seq<string>>)
    requires pos <= |data|
    ensures r == Convert(Bulks(Lines(data, pos), numElements), truncate)
  {
    var result: seq<string> := [];
    ghost var target := Convert(Bulks(Lines(data, pos), numElements), truncate);
    ContinueNothing(Bulks(Lines(data, pos), numElements), truncate);
    var i := 0;
    ghost var left := numElements;
    var at: nat := pos;
    while i < numElements
      invariant at <= |data| && left == numElements - i
      invariant target == Continue(result, Bulks(Lines(data, at), left), truncate)
      decreases numElements - i
    {
      var t: Turn, next: nat, more: seq<string> := ReadElement(data, at, left, result, truncate);
      if t.Stop? {
        return Done(result);
      }
      if t.Throws? {
        return Threw;
      }
      result := more;
      at := next;
      i := i + 1;
      left := left - 1;
    }
    NothingLeft(Lines(data, at), left);
    ContinueDone(result, truncate);
    return Done(result);
  }

  /**
   * One turn of the loop in `parseArray`: a bulk string read as `ReadBulk`
   * does, its payload cut to the declared length when `truncate` is set and
   * the two differ; `more` is `done` with that payload appended.
   */
  method ReadElement(data: string, pos: nat, ghost n: int, done: seq<string>, truncate: bool)
    returns (t: Turn, next: nat, more: seq<string>)
    requires pos <= |data| && n > 0
    ensures next <= |data|
    ensures Continue(done, Bulks(Lines(data, pos), n), truncate) ==
        match t
        case Stop => Done(done)
        case Throws => Threw
        case Got(_) => Continue(more, Bulks(Lines(data, next), n - 1), truncate)
  {
    t, next := ReadBulk(data, pos, n);
    more := done;
    if t.Stop? {
      ContinueDone(done, truncate);
      return;
    }
    if t.Throws? {
      return;
    }
    var b := t.bulk;
    var line := b.payload;
    if truncate && |line| != b.declared {
      line := Truncate(line, b.declared);
    }
    ContinueNext(done, b, Bulks(Lines(data, next), n - 1), truncate);
    more := done + [line];
  }

  /** The outcome of a parse that has returned `done` so far and will read `rest`. */
  function Continue(done: seq<string>, rest: Outcome<seq<Bulk>>, truncate: bool): Outcome<seq<string>>
  {
    match rest
    case Threw => Threw
    case Done(more) => Done(done + Payloads(more, truncate))
  }

  lemma {:induction false} ContinueNothing(rest: Outcome<seq<Bulk>>, truncate: bool)
    ensures Convert(rest, truncate) == Continue([], rest, truncate)
  {
    if rest.Done? {
      assert [] + Payloads(rest.value, truncate) == Payloads(rest.value, truncate);
    }
  }

  lemma {:induction false} ContinueDone(done: seq<string>, truncate: bool)
    ensures Continue(done, Done([]), truncate) == Done(done)
  {
    assert done + Payloads([], truncate) == done;
  }

  lemma {:induction false} ContinueNext(done: seq<string>, b: Bulk, more: Outcome<seq<Bulk>>, truncate: bool)
    ensures Continue(done, Prepend([b], more), truncate) == Continue(done + [Payload(b, truncate)], more, truncate)
  {
    if more.Done? {
      var m := more.value;
      assert Payloads([b] + m, truncate) == [Payload(b, truncate)] + Payloads(m, truncate);
      assert done + ([Payload(b, truncate)] + Payloads(m, truncate))
          == (done + [Payload(b, truncate)]) + Payloads(m, truncate);
    }
  }

  lemma {:induction false} NothingLeft(lines: seq<string>, n: int)
    requires n <= 0
    ensures Bulks(lines, n) == Done([])
  {
  }

  /** `parseSimpleString`: the index `data.find("\r\n")` finds, when it finds one. */
  function FindCRLF(data: string): (r: Option<nat>)
    ensures r.Some? ==> r.value + 1 < |data| && data[r.value] == '\r' && data[r.value + 1] == '\n'
    ensures forall j | 0 <= j < (if r.Some? then r.value else |data|) && j + 1 < |data| ::
              !(data[j] == '\r' && data[j + 1] == '\n')
  {
    if |data| < 2 then None
    else if data[0] == '\r' && data[1] == '\n' then Some(0)
    else match FindCRLF(data[1..])
      case None => None
      case Some(k) => Some(k + 1)
  }

  predicate HasNoCRLF(s: string)
  {
    forall j | 0 <= j && j + 1 < |s| :: !(s[j] == '\r' && s[j + 1] == '\n')
  }

  /**
   * `parseSimpleString`: the text between the leading '+' and the first
   * "\r\n"; empty when the input does not start with '+' or has no "\r\n".
   */
  function ParseSimpleString(data: string): (r: string)
    ensures data == [] || data[0] != '+' || FindCRLF(data).None? ==> r == ""
    ensures data != [] && data[0] == '+' && FindCRLF(data).Some? ==> r == data[1..FindCRLF(data).value]
    ensures r != "" ==>
      && data[0] == '+' && |r| + 3 <= |data|
      && data[1..|r| + 1] == r && data[|r| + 1..|r| + 3] == CRLF
      && HasNoCRLF(data[..|r| + 2])
  {
    if data == [] || data[0] != '+' then ""
    else match FindCRLF(data)
      case None => ""
      case Some(end) => data[1..end]
  }

  // ---------------------------------------------------------------------
  // Properties

  lemma {:induction false} BulkFramesSnoc(items: seq<string>, x: string)
    ensures BulkFrames(items + [x]) == BulkFrames(items) + EncodeBulkString(x)
    decreases |items|
  {
    if items == [] {
      assert items + [x] == [x];
      assert [x][1..] == [];
    } else {
      assert (items + [x])[1..] == items[1..] + [x];
      BulkFramesSnoc(items[1..], x);
    }
  }

  /** A line `getline` yields holds no '\n'. */
  lemma {:induction false} LineAtHasNoNewline(data: string, pos: nat)
    requires pos <= |data|
    ensures '\n' !in LineAt(data, pos)
    decreases |data| - pos
  {
    if pos < |data| && data[pos] != '\n' {
      LineAtHasNoNewline(data, pos + 1);
    }
  }

  /** `a` is written in `data` from position `pos` on. */
  predicate Occurs(data: string, pos: nat, a: string)
  {
    pos + |a| <= |data| && data[pos..pos + |a|] == a
  }

  lemma {:induction false} OccursSplit(data: string, pos: nat, a: string, b: string)
    requires Occurs(data, pos, a + b)
    ensures Occurs(data, pos, a) && Occurs(data, pos + |a|, b)
  {
    var whole := data[pos..pos + |a| + |b|];
    assert data[pos..pos + |a|] == whole[..|a|] == a;
    assert data[pos + |a|..pos + |a| + |b|] == whole[|a|..] == b;
  }

  lemma {:induction false} OccursPrefix(x: string, y: string)
    ensures Occurs(x + y, 0, x)
  {
    assert (x + y)[0..|x|] == x;
  }

  /** The line at a position where `a` and then '\n' are written is `a`. */
  lemma {:induction false} LineAtOccurrence(data: string, pos: nat, a: string)
    requires '\n' !in a && Occurs(data, pos, a + "\n")
    ensures LineAt(data, pos) == a
    decreases |a|
  {
    if a == [] {
      assert data[pos] == (a + "\n")[0];
    } else {
      assert data[pos] == (a + "\n")[0] == a[0];
      assert [a[0]] + (a[1..] + "\n") == a + "\n";
      OccursSplit(data, pos, [a[0]], a[1..] + "\n");
      LineAtOccurrence(data, pos + 1, a[1..]);
    }
  }

  lemma {:induction false} LinesAt(data: string, pos: nat, a: string)
    requires '\n' !in a && Occurs(data, pos, a + "\n")
    ensures Lines(data, pos) == [a] + Lines(data, pos + |a| + 1)
  {
    LineAtOccurrence(data, pos, a);
  }

  /** Every line `getline` yields is free of '\n'. */
  lemma {:induction false} LinesHaveNoNewline(data: string, pos: nat)
    requires pos <= |data|
    ensures forall i :: 0 <= i < |Lines(data, pos)| ==> '\n' !in Lines(data, pos)[i]
    decreases |data| - pos
  {
    match GetLine(data, pos)
    case None =>
    case Some((line, next)) =>
      LineAtHasNoNewline(data, pos);
      LinesHaveNoNewline(data, next);
      assert Lines(data, pos) == [line] + Lines(data, next);
  }

  predicate NoNewline(items: seq<string>)
  {
    forall i :: 0 <= i < |items| ==> '\n' !in items[i]
  }

  predicate FitsInt(items: seq<string>)
  {
    |items| <= IntMax && forall i :: 0 <= i < |items| ==> |items[i]| <= IntMax
  }

  /** The two lines `EncodeBulkString(x)` puts on the stream: its header and its payload, each with its '\r'. */
  function BulkLines(x: string): seq<string>
  {
    ["$" + NatToString(|x|) + "\r", x + "\r"]
  }

  /** The lines of `BulkFrames(items)`, two per item. */
  function FrameLines(items: seq<string>): (r: seq<string>)
    ensures |r| == 2 * |items|
  {
    if items == [] then [] else BulkLines(items[0]) + FrameLines(items[1..])
  }

  lemma {:induction false} DigitsHaveNoNewline(tag: char, n: nat)
    requires tag != '\n'
    ensures '\n' !in [tag] + NatToString(n) + "\r"
  {
    var digits := NatToString(n);
    assert forall j :: 0 <= j < |digits| ==> IsDigit(digits[j]);
  }

  /** Two lines, each ended by '\n', read as two lines. */
  lemma {:induction false} LinesOfTwo(data: string, pos: nat, a: string, b: string)
    requires '\n' !in a && '\n' !in b && Occurs(data, pos, (a + "\n") + (b + "\n"))
    ensures Lines(data, pos) == [a, b] + Lines(data, pos + |a| + |b| + 2)
  {
    OccursSplit(data, pos, a + "\n", b + "\n");
    var mid, end := pos + |a| + 1, pos + |a| + |b| + 2;
    LinesAt(data, pos, a);
    LinesAt(data, mid, b);
    assert mid + |b| + 1 == end;
    ConsTwo(a, b, Lines(data, end));
  }

  lemma {:induction false} ConsTwo(a: string, b: string, rest: seq<string>)
    ensures [a] + ([b] + rest) == [a, b] + rest
  {
  }

  /** A bulk frame is its header line and its payload line, each ended by "\r\n". */
  lemma {:induction false} BulkStringAsLines(x: string)
    ensures EncodeBulkString(x) == (("$" + NatToString(|x|) + "\r") + "\n") + ((x + "\r") + "\n")
  {
  }

  /** `getline` splits one bulk frame into its header and payload lines. */
  lemma {:induction false} LinesOfBulkFrame(data: string, pos: nat, x: string)
    requires '\n' !in x && Occurs(data, pos, EncodeBulkString(x))
    ensures Lines(data, pos) == BulkLines(x) + Lines(data, pos + |EncodeBulkString(x)|)
  {
    var header := "$" + NatToString(|x|) + "\r";
    BulkStringAsLines(x);
    DigitsHaveNoNewline('$', |x|);
    assert header == ['$'] + NatToString(|x|) + "\r";
    LinesOfTwo(data, pos, header, x + "\r");
  }

  /** `getline` splits the bulk frames of `items`, written from `pos` to `end`, into their header and payload lines. */
  lemma {:induction false} LinesOfBulkFrames(data: string, pos: nat, items: seq<string>, end: nat)
    requires NoNewline(items) && Occurs(data, pos, BulkFrames(items)) && end == pos + |BulkFrames(items)|
    ensures end <= |data| && Lines(data, pos) == FrameLines(items) + Lines(data, end)
    decreases |items|
  {
    if items == [] {
      assert FrameLines(items) + Lines(data, end) == Lines(data, end);
    } else {
      var next := FirstFrameOccurs(data, pos, items);
      LinesOfBulkFrame(data, pos, items[0]);
      LinesOfBulkFrames(data, next, items[1..], end);
      JoinFrameLines(items, Lines(data, pos), Lines(data, next), Lines(data, end));
    }
  }

  /** The lines of the first frame, then those of the others, are the lines of all the frames. */
  lemma {:induction false} JoinFrameLines(items: seq<string>, all: seq<string>, others: seq<string>, after: seq<string>)
    requires items != [] && all == BulkLines(items[0]) + others && others == FrameLines(items[1..]) + after
    ensures all == FrameLines(items) + after
  {
    FrameLinesCons(items, after);
  }

  /** The first bulk frame of `items` and the frames of the others lie one after the other where `BulkFrames(items)` lies, and neither part holds a '\n'. */
  lemma {:induction false} FirstFrameOccurs(data: string, pos: nat, items: seq<string>) returns (next: nat)
    requires items != [] && NoNewline(items) && Occurs(data, pos, BulkFrames(items))
    ensures '\n' !in items[0] && NoNewline(items[1..])
    ensures next == pos + |EncodeBulkString(items[0])|
    ensures Occurs(data, pos, EncodeBulkString(items[0])) && Occurs(data, next, BulkFrames(items[1..]))
    ensures next + |BulkFrames(items[1..])| == pos + |BulkFrames(items)|
  {
    var first, others := EncodeBulkString(items[0]), BulkFrames(items[1..]);
    assert BulkFrames(items) == first + others;
    OccursSplit(data, pos, first, others);
    assert forall i :: 0 <= i < |items[1..]| ==> items[1..][i] == items[i + 1];
    next := pos + |first|;
  }

  lemma {:induction false} FrameLinesCons(items: seq<string>, lines: seq<string>)
    requires items != []
    ensures FrameLines(items) + lines == BulkLines(items[0]) + (FrameLines(items[1..]) + lines)
  {
  }

  /** What reading back `BulkFrames(items)` yields: every item with its exact length. */
  function Exact(items: seq<string>): (r: seq<Bulk>)
    ensures |r| == |items|
  {
    seq(|items|, i requires 0 <= i < |items| => Bulk(|items[i]|, items[i]))
  }

  lemma {:induction false} ExactCons(items: seq<string>)
    requires items != []
    ensures Exact(items) == [Bulk(|items[0]|, items[0])] + Exact(items[1..])
  {
  }

  lemma {:induction false} PrependNothing(o: Outcome<seq<Bulk>>)
    ensures Prepend([], o) == o
  {
    if o.Done? {
      assert [] + o.value == o.value;
    }
  }

  /** What the array header at the start of `data` leads the decoder to read. */
  lemma {:induction false} ElementsAfterHeader(data: string, header: string, pos: nat, n: int)
    requires GetLine(data, 0) == Some((header, pos)) && IsHeader(header, '*')
    requires HeaderValue(header) == Done(n)
    ensures Elements(data) == Prepend([], Bulks(Lines(data, pos), n))
  {
    LinesStep(data, 0);
    PrependNothing(Bulks(Lines(data, pos), n));
  }

  lemma {:induction false} ElementsThrow(data: string, header: string, pos: nat)
    requires GetLine(data, 0) == Some((header, pos)) && IsHeader(header, '*')
    requires HeaderValue(header) == Threw
    ensures Elements(data) == Threw
  {
    LinesStep(data, 0);
  }

  /** `getline` from a position before the end consumes the head of `Lines`. */
  lemma {:induction false} LinesStep(data: string, pos: nat)
    requires pos < |data|
    ensures Lines(data, pos) == [GetLine(data, pos).value.0] + Lines(data, GetLine(data, pos).value.1)
  {
  }

  /** A bulk header whose length `stoi` rejects throws. */
  lemma {:induction false} BulksThrow(lines: seq<string>, header: string, n: int)
    requires n > 0 && lines != [] && lines[0] == header && IsHeader(header, '$')
    requires HeaderValue(header).Threw?
    ensures Bulks(lines, n) == Threw
  {
  }

  /** A bulk header with no payload line after it ends the loop. */
  lemma {:induction false} BulksLast(lines: seq<string>, header: string, n: int)
    requires lines == [header] && IsHeader(header, '$') && HeaderValue(header).Done?
    ensures Bulks(lines, n) == Done([])
  {
  }

  /** A bulk header and its payload line read as one bulk string. */
  lemma {:induction false} BulksNext(lines: seq<string>, header: string, payload: string, more: seq<string>, n: int)
    requires n > 0 && IsHeader(header, '$') && HeaderValue(header).Done?
    requires lines == [header] + ([payload] + more)
    ensures Bulks(lines, n) == Prepend([Bulk(HeaderValue(header).value, StripCR(payload))], Bulks(more, n - 1))
  {
    assert lines[2..] == more;
  }

  lemma {:induction false} PrependPrepend(a: seq<Bulk>, b: seq<Bulk>, o: Outcome<seq<Bulk>>)
    ensures Prepend(a, Prepend(b, o)) == Prepend(a + b, o)
  {
    if o.Done? {
      assert a + (b + o.value) == (a + b) + o.value;
    }
  }

  /** One bulk frame at the head of the remaining lines reads back as its item. */
  lemma {:induction false} ReadOneBulk(x: string, lines: seq<string>, n: int)
    requires |x| <= IntMax && n > 0
    ensures Bulks(BulkLines(x) + lines, n) == Prepend([Bulk(|x|, x)], Bulks(lines, n - 1))
  {
    var digits := NatToString(|x|);
    var all := BulkLines(x) + lines;
    assert all[0] == "$" + digits + "\r" && all[1] == x + "\r" && all[2..] == lines;
    assert StripCR("$" + digits + "\r") == "$" + digits;
    assert ("$" + digits)[1..] == digits;
    StoIOfNatToString(|x|);
    assert StripCR(x + "\r") == x;
  }

  /**
   * Reading `n` bulk strings, `n` at least `|items|`, from the lines of
   * `BulkFrames(items)` followed by `lines`: all the items, exactly, followed
   * by what the remaining count reads from `lines`.
   */
  lemma {:induction false} ReadBulkFrames(items: seq<string>, lines: seq<string>, n: int)
    requires FitsInt(items) && n >= |items|
    ensures Bulks(FrameLines(items) + lines, n) == Prepend(Exact(items), Bulks(lines, n - |items|))
    decreases |items|
  {
    if items == [] {
      assert FrameLines(items) + lines == lines;
      assert Exact(items) == [];
      PrependNothing(Bulks(lines, n));
    } else {
      ReadBulkFrames(items[1..], lines, n - 1);
      ReadFirstBulkFrame(items, lines, n);
    }
  }

  lemma {:induction false} ReadFirstBulkFrame(items: seq<string>, lines: seq<string>, n: int)
    requires FitsInt(items) && items != [] && n >= |items|
    requires Bulks(FrameLines(items[1..]) + lines, n - 1) == Prepend(Exact(items[1..]), Bulks(lines, n - |items|))
    ensures Bulks(FrameLines(items) + lines, n) == Prepend(Exact(items), Bulks(lines, n - |items|))
  {
    var x := items[0];
    var more := FrameLines(items[1..]) + lines;
    FrameLinesCons(items, lines);
    ReadOneBulk(x, more, n);
    ExactCons(items);
    PrependPrepend([Bulk(|x|, x)], Exact(items[1..]), Bulks(lines, n - |items|));
  }

  /** `FrameLines` of a concatenation. */
  lemma {:induction false} FrameLinesAppend(a: seq<string>, b: seq<string>)
    ensures FrameLines(a + b) == FrameLines(a) + FrameLines(b)
    decreases |a|
  {
    if a == [] {
      assert a + b == b;
    } else {
      assert (a + b)[1..] == a[1..] + b;
      FrameLinesAppend(a[1..], b);
    }
  }

  /**
   * When the count declared is at most `|items|`, the loop reads exactly the
   * first `n` items and never looks further.
   */
  lemma {:induction false} ReadBulkFramesPrefix(items: seq<string>, lines: seq<string>, n: nat)
    requires FitsInt(items) && n <= |items|
    ensures Bulks(FrameLines(items) + lines, n) == Done(Exact(items[..n]))
  {
    assert items == items[..n] + items[n..];
    FrameLinesAppend(items[..n], items[n..]);
    assert FrameLines(items) + lines == FrameLines(items[..n]) + (FrameLines(items[n..]) + lines);
    ReadBulkFrames(items[..n], FrameLines(items[n..]) + lines, n);
    assert Exact(items[..n]) + [] == Exact(items[..n]);
  }

  lemma {:induction false} ExactPayloads(items: seq<string>, truncate: bool)
    ensures Payloads(Exact(items), truncate) == items
  {
  }

  /**
   * Round trip: decoding `encodeArray(items)` gives `items` back, when no
   * item holds a '\n' (the line separator of the decoder) and every length
   * fits the `int` that `stoi` returns.  Both parsers agree here.
   */
  lemma {:induction false} RoundTrip(items: seq<string>, truncate: bool)
    requires NoNewline(items) && FitsInt(items)
    ensures Decode(ArrayFrame(items), truncate) == Done(items)
  {
    DecodeDeclaredPrefix(items, |items|, "", truncate);
    assert ArrayFrame(items) == "*" + NatToString(|items|) + CRLF + BulkFrames(items) + "";
    assert items[..|items|] == items;
  }

  /**
   * Splits a request into the lines of its array header and of its bulk
   * frames; `pos` is where the frames end.
   */
  lemma {:induction false} LinesOfRequest(n: nat, items: seq<string>, tail: string) returns (pos: nat)
    requires NoNewline(items)
    ensures pos == |NatToString(n)| + 3 + |BulkFrames(items)|
    ensures var data := "*" + NatToString(n) + CRLF + BulkFrames(items) + tail;
      pos <= |data| && Lines(data, 0) == ["*" + NatToString(n) + "\r"] + (FrameLines(items) + Lines(data, pos))
  {
    var header := "*" + NatToString(n) + "\r";
    var frames := BulkFrames(items);
    var data := "*" + NatToString(n) + CRLF + frames + tail;
    assert data == ((header + "\n") + frames) + tail;
    OccursPrefix((header + "\n") + frames, tail);
    pos := |header| + 1 + |frames|;
    LinesOfHeaderAndFrames(data, header, items, pos);
  }

  lemma {:induction false} LinesOfHeaderAndFrames(data: string, header: string, items: seq<string>, end: nat)
    requires '\n' !in header && NoNewline(items)
    requires Occurs(data, 0, (header + "\n") + BulkFrames(items)) && end == |header| + 1 + |BulkFrames(items)|
    ensures end <= |data| && Lines(data, 0) == [header] + (FrameLines(items) + Lines(data, end))
  {
    OccursSplit(data, 0, header + "\n", BulkFrames(items));
    LinesAt(data, 0, header);
    LinesOfBulkFrames(data, |header| + 1, items, end);
  }

  /** After an array header declaring `n`, the decoder reads `n` bulk strings from the lines that follow. */
  lemma {:induction false} ElementsOfLines(data: string, header: string, rest: seq<string>, n: int)
    requires Lines(data, 0) == [header] + rest
    requires IsHeader(header, '*') && HeaderValue(header) == Done(n)
    ensures Elements(data) == Bulks(rest, n)
  {
    assert ([header] + rest)[1..] == rest;
  }

  /** The count of a request header reads back as written. */
  lemma {:induction false} ArrayHeaderValue(n: nat)
    requires n <= IntMax
    ensures IsHeader("*" + NatToString(n) + "\r", '*')
    ensures HeaderValue("*" + NatToString(n) + "\r") == Done(n)
  {
    assert StripCR("*" + NatToString(n) + "\r") == "*" + NatToString(n);
    assert ("*" + NatToString(n))[1..] == NatToString(n);
    StoIOfNatToString(n);
  }

  /**
   * A header declaring `n` elements, at most `|items|`, followed by the bulk
   * frames of `items` and anything at all: the first `n` items, since the
   * loop stops after `n` elements.
   */
  lemma {:induction false} DecodeDeclaredPrefix(items: seq<string>, n: nat, tail: string, truncate: bool)
    requires NoNewline(items) && FitsInt(items) && n <= |items|
    ensures Decode("*" + NatToString(n) + CRLF + BulkFrames(items) + tail, truncate) == Done(items[..n])
  {
    var data := "*" + NatToString(n) + CRLF + BulkFrames(items) + tail;
    var pos := LinesOfRequest(n, items, tail);
    ArrayHeaderValue(n);
    ElementsOfLines(data, "*" + NatToString(n) + "\r", FrameLines(items) + Lines(data, pos), n);
    ReadBulkFramesPrefix(items, Lines(data, pos), n);
    ExactPayloads(items[..n], truncate);
  }

  /**
   * A request cut short: a header declaring more elements than the frames
   * that follow decodes to the elements present, whether the stream ends
   * there or goes on with a line that is not a '$' header; the loop breaks
   * in both cases and keeps what it has read.
   */
  lemma {:induction false} DecodeShortArray(items: seq<string>, n: nat, tail: string, truncate: bool)
    requires NoNewline(items) && FitsInt(items) && |items| < n <= IntMax
    requires tail == [] || tail[0] != '$'
    ensures Decode("*" + NatToString(n) + CRLF + BulkFrames(items) + tail, truncate) == Done(items)
  {
    var data := "*" + NatToString(n) + CRLF + BulkFrames(items) + tail;
    var pos := LinesOfRequest(n, items, tail);
    ArrayHeaderValue(n);
    assert pos + |tail| == |data| && data[pos..] == tail;
    NoBulkHeaderLeft(data, pos, n - |items|);
    ElementsOfLines(data, "*" + NatToString(n) + "\r", FrameLines(items) + Lines(data, pos), n);
    ReadBulkFrames(items, Lines(data, pos), n);
    assert Exact(items) + [] == Exact(items);
    ExactPayloads(items, truncate);
  }

  /** The loop reads nothing from a position where the stream ends or the next line does not start with '$'. */
  lemma {:induction false} NoBulkHeaderLeft(data: string, pos: nat, n: int)
    requires pos <= |data| && (pos == |data| || data[pos] != '$')
    ensures Bulks(Lines(data, pos), n) == Done([])
  {
    if pos < |data| {
      LinesStep(data, pos);
      var line := LineAt(data, pos);
      assert line == [] || line[0] == data[pos];
    }
  }

  /** `encodeArray([])` is the empty array header. */
  lemma {:induction false} EmptyArrayFrame()
    ensures ArrayFrame([]) == "*0\r\n"
  {
  }

  /** An input whose first line is missing, empty or not a '*' header decodes to nothing. */
  lemma {:induction false} DecodeRejectsNonArray(data: string, truncate: bool)
    requires Lines(data, 0) == [] || !IsHeader(Lines(data, 0)[0], '*')
    ensures Decode(data, truncate) == Done([])
  {
  }

  lemma {:induction false} BulksAtMost(lines: seq<string>, n: int)
    ensures Bulks(lines, n).Done? ==> |Bulks(lines, n).value| <= if n < 0 then 0 else n
    decreases |lines|
  {
    if n > 0 && |lines| >= 2 {
      BulksAtMost(lines[2..], n - 1);
    }
  }

  /** The decoder never returns more elements than the header declares. */
  lemma {:induction false} DecodeAtMostDeclared(data: string, truncate: bool)
    requires Decode(data, truncate).Done?
    ensures |Decode(data, truncate).value| <= match DeclaredCount(data)
      case None => 0
      case Some(n) => if n < 0 then 0 else n
  {
    var lines := Lines(data, 0);
    if lines != [] && IsHeader(lines[0], '*') && HeaderValue(lines[0]).Done? {
      BulksAtMost(lines[1..], HeaderValue(lines[0]).value);
    }
  }

  /** Every payload the loop reads is the CR-stripped form of a line that has no '\n'. */
  lemma {:induction false} BulksAreLines(lines: seq<string>, n: int)
    requires forall i :: 0 <= i < |lines| ==> '\n' !in lines[i]
    ensures Bulks(lines, n).Done? ==> forall i :: 0 <= i < |Bulks(lines, n).value| ==> '\n' !in Bulks(lines, n).value[i].payload
    decreases |lines|
  {
    if n > 0 && |lines| >= 2 && IsHeader(lines[0], '$') && HeaderValue(lines[0]).Done? {
      BulksAreLines(lines[2..], n - 1);
      var b := Bulk(HeaderValue(lines[0]).value, StripCR(lines[1]));
      assert '\n' !in b.payload;
    }
  }

  /**
   * Every element either parser returns is a single line with its '\r'
   * stripped; this parser also cuts it to at most its declared length, and
   * each element it returns is the legacy parser's element truncated.
   */
  lemma {:induction false} DecodedElements(data: string)
    requires Elements(data).Done?
    ensures var bulks := Elements(data).value;
      && Decode(data, true) == Done(Payloads(bulks, true))
      && Decode(data, false) == Done(Payloads(bulks, false))
      && (forall i :: 0 <= i < |bulks| ==> '\n' !in Payloads(bulks, false)[i] && '\n' !in Payloads(bulks, true)[i])
      && (forall i :: 0 <= i < |bulks| && bulks[i].declared >= 0 ==> |Payloads(bulks, true)[i]| <= bulks[i].declared)
      && (forall i :: 0 <= i < |bulks| ==> Payloads(bulks, true)[i] == Truncate(Payloads(bulks, false)[i], bulks[i].declared))
  {
    var lines := Lines(data, 0);
    if lines != [] && IsHeader(lines[0], '*') {
      LinesHaveNoNewline(data, 0);
      BulksAreLines(lines[1..], HeaderValue(lines[0]).value);
    }
  }

  /** The two parsers throw on the same inputs and return the same number of elements. */
  lemma {:induction false} DecodersAlign(data: string)
    ensures Decode(data, true).Threw? <==> Decode(data, false).Threw?
    ensures Decode(data, true).Done? ==> |Decode(data, true).value| == |Decode(data, false).value|
  {
  }

  /** Where every declared length matches its payload, the two parsers return the same elements. */
  lemma {:induction false} DecodersAgreeOnAccurateLengths(data: string)
    requires Elements(data).Done?
    requires forall i :: 0 <= i < |Elements(data).value| ==> Elements(data).value[i].declared == |Elements(data).value[i].payload|
    ensures Decode(data, true) == Decode(data, false)
  {
    var bulks := Elements(data).value;
    assert Payloads(bulks, true) == Payloads(bulks, false);
  }

  /** The master's "+PONG\r\n" and "+OK\r\n" read back as the text they carry. */
  lemma {:induction false} SimpleStringRoundTrip(s: string)
    requires HasNoCRLF(s)
    ensures ParseSimpleString(EncodeSimpleString(s)) == s
  {
    var data := EncodeSimpleString(s);
    assert data[|s| + 1] == '\r' && data[|s| + 2] == '\n';
    match FindCRLF(data)
    case None =>
    case Some(end) =>
      assert end == |s| + 1;
      assert data[1..end] == s;
  }
}
