/**
 * The message side of `DnsWireFormat`: building a query (RFC 1035 sections
 * 4.1.1 and 4.1.2) and reading the answers of a response (section 4.1.3;
 * AAAA records as in section 2.1 of RFC 3596). `parseResponse` collects
 * names or address texts of one record type; `parseAddressRecords` collects
 * the A and AAAA addresses a socket family allows.
 */
module DnsMessage {
  import opened Common
  import opened Strings
  import opened DnsName

  /** The record types the resolver asks for. */
  datatype RecordType = A | NS | CNAME | AAAA

  /** The TYPE codes: A 1, NS 2, CNAME 5 (RFC 1035 section 3.2.2), AAAA 28 (RFC 3596). */
  function TypeCode(t: RecordType): U16
  {
    match t
    case A => 1
    case NS => 2
    case CNAME => 5
    case AAAA => 28
  }

  const HeaderSize := 12
  /** The flags of a query: only RD (recursion desired) set. */
  const QueryFlags: U16 := 0x0100
  /** QCLASS IN. */
  const ClassIN: U16 := 1

  // ------------------------------------------------------------------
  // Building a query
  // ------------------------------------------------------------------

  /** The twelve header octets of a message, every field big-endian. */
  function Header(id: U16, flags: U16, qdcount: U16, ancount: U16, nscount: U16, arcount: U16): (h: seq<Byte>)
    ensures |h| == HeaderSize
  {
    U16Bytes(id) + U16Bytes(flags) + U16Bytes(qdcount) + U16Bytes(ancount) + U16Bytes(nscount) + U16Bytes(arcount)
  }

  /**
   * The message `buildQuery(name, type)` returns when `rand()` gives `id`:
   * the header, the question's name, QTYPE and QCLASS; or the empty message
   * when `encodeName` refuses the name.
   */
  function Query(id: U16, name: string, t: RecordType): (q: seq<Byte>)
    ensures q == [] <==> NameEncoding(name).None?
  {
    match NameEncoding(name)
    case None => []
    case Some(enc) => Header(id, QueryFlags, 1, 0, 0, 0) + Question(enc, t)
  }

  /** A question entry: the encoded name, QTYPE and QCLASS IN. */
  function Question(enc: seq<Byte>, t: RecordType): (q: seq<Byte>)
    ensures |q| == |enc| + 4
  {
    enc + U16Bytes(TypeCode(t)) + U16Bytes(ClassIN)
  }

  /** `buildQuery`, with the random ID as the parameter `id`. */
  method BuildQuery(name: string, t: RecordType, id: U16) returns (query: seq<Byte>)
    ensures query == Query(id, name, t)
  {
    query := U16Bytes(id) + U16Bytes(QueryFlags) + U16Bytes(1) + U16Bytes(0) + U16Bytes(0) + U16Bytes(0);
    var ok;
    ok, query := EncodeName(name, query);
    if !ok {
      return [];
    }
    query := query + U16Bytes(TypeCode(t)) + U16Bytes(ClassIN);
  }

  /** The fields of a header read back as they were written. */
  lemma {:induction false} HeaderFields(id: U16, flags: U16, qd: U16, an: U16, ns: U16, ar: U16, suffix: seq<Byte>)
    ensures var m := Header(id, flags, qd, an, ns, ar) + suffix;
            ReadU16(m, 0) == id && ReadU16(m, 2) == flags && ReadU16(m, 4) == qd
            && ReadU16(m, 6) == an && ReadU16(m, 8) == ns && ReadU16(m, 10) == ar
  {
    var m := Header(id, flags, qd, an, ns, ar) + suffix;
    ReadU16OfBytes([], id, m[2..]);
    ReadU16OfBytes(m[..2], flags, m[4..]);
    ReadU16OfBytes(m[..4], qd, m[6..]);
    ReadU16OfBytes(m[..6], an, m[8..]);
    ReadU16OfBytes(m[..8], ns, m[10..]);
    ReadU16OfBytes(m[..10], ar, m[12..]);
  }

  /**
   * A built query: ID `id`, flags 0x0100, one question and no other records;
   * then the encoded name, QTYPE and QCLASS IN, in 16 + |name encoding| octets.
   */
  lemma {:induction false} QueryLayout(id: U16, name: string, t: RecordType)
    requires NameEncoding(name).Some?
    ensures var q := Query(id, name, t);
            var n := |NameEncoding(name).value|;
            |q| == HeaderSize + n + 4
            && ReadU16(q, 0) == id && ReadU16(q, 2) == QueryFlags && ReadU16(q, 4) == 1
            && ReadU16(q, 6) == 0 && ReadU16(q, 8) == 0 && ReadU16(q, 10) == 0
            && ReadU16(q, HeaderSize + n) == TypeCode(t) && ReadU16(q, HeaderSize + n + 2) == ClassIN
  {
    var enc := NameEncoding(name).value;
    var head := Header(id, QueryFlags, 1, 0, 0, 0) + enc;
    var q := Query(id, name, t);
    assert q == Header(id, QueryFlags, 1, 0, 0, 0) + (enc + U16Bytes(TypeCode(t)) + U16Bytes(ClassIN));
    assert q == head + U16Bytes(TypeCode(t)) + U16Bytes(ClassIN);
    HeaderFields(id, QueryFlags, 1, 0, 0, 0, enc + U16Bytes(TypeCode(t)) + U16Bytes(ClassIN));
    ReadU16OfBytes(head, TypeCode(t), U16Bytes(ClassIN));
    ReadU16OfBytes(head + U16Bytes(TypeCode(t)), ClassIN, []);
    assert q == head + U16Bytes(TypeCode(t)) + U16Bytes(ClassIN) + [];
  }

  // ------------------------------------------------------------------
  // Reading a response
  // ------------------------------------------------------------------

  /** At least a header, and RCODE, the low four bits of the flags, is zero. */
  predicate HeaderAccepted(data: seq<Byte>)
  {
    |data| >= HeaderSize && ReadU16(data, 2) % 16 == 0
  }

  /**
   * The offset after `k` questions from `offset`: each a name, read by
   * `decodeName` with the label rule `rule`, followed by QTYPE and QCLASS;
   * None when a name cannot be read or the four octets run past the end.
   * With `StallWhenFull` this is the question loop as written.
   */
  function SkipQuestions(data: seq<Byte>, offset: nat, k: nat, rule: LabelRule): (r: Option<nat>)
    ensures r.Some? ==> r.value <= |data|
    decreases k
  {
    if k == 0 then (if offset <= |data| then Some(offset) else None)
    else
      match DecodeNameAt(data, offset, rule)
      case Failed => None
      case Decoded(_, end) => if end + 4 > |data| then None else SkipQuestions(data, end + 4, k - 1, rule)
  }

  /** One answer's fixed fields, read after its owner name: TYPE, and where RDATA lies. */
  datatype AnswerStep = Malformed | Record(rtype: U16, rdata: nat, rdlength: U16)

  /**
   * One turn of the answer loops, the owner name read with the label rule
   * `rule`. The ten octets of TYPE, CLASS, TTL and RDLENGTH are
   * bounds-checked where they are read, after the owner name, and RDATA must
   * lie inside the message.
   */
  function AnswerAt(data: seq<Byte>, offset: nat, rule: LabelRule): (r: AnswerStep)
    ensures r.Record? ==> 10 <= r.rdata && r.rdata + r.rdlength <= |data|
  {
    if offset + 10 > |data| then Malformed
    else
      match DecodeNameAt(data, offset, rule)
      case Failed => Malformed
      case Decoded(_, end) =>
        if end + 10 > |data| then Malformed
        else
          var rdlength := ReadU16(data, end + 8);
          if end + 10 + rdlength > |data| then Malformed
          else Record(ReadU16(data, end), end + 10, rdlength)
  }

  /** Outcome of the answer loop as the code is written: it reads past the end, or it takes the step. */
  datatype WrittenStep = ReadsPastEnd | Takes(step: AnswerStep)

  /**
   * One turn of the answer loops as written: the check `offset + 10 > len`
   * comes before the owner name is read, so once `decodeName` has moved
   * `offset` past the name, TYPE and RDLENGTH may lie past the end of the
   * message (`ReadsPastEnd`).
   */
  function AnswerAtAsWritten(data: seq<Byte>, offset: nat, rule: LabelRule): WrittenStep
  {
    if offset + 10 > |data| then Takes(Malformed)
    else
      match DecodeNameAt(data, offset, rule)
      case Failed => Takes(Malformed)
      case Decoded(_, end) =>
        if end + 10 > |data| then ReadsPastEnd
        else
          var rdlength := ReadU16(data, end + 8);
          if end + 10 + rdlength > |data| then Takes(Malformed)
          else Takes(Record(ReadU16(data, end), end + 10, rdlength))
  }

  /**
   * Under either label rule, wherever the code as written stays inside the
   * message the step with the guard re-checked agrees with it, and where it
   * reads past the end that step reports a malformed answer.
   */
  lemma {:induction false} AnswerAtAgreesAsWritten(data: seq<Byte>, offset: nat, rule: LabelRule)
    ensures AnswerAtAsWritten(data, offset, rule) != ReadsPastEnd
            ==> AnswerAtAsWritten(data, offset, rule) == Takes(AnswerAt(data, offset, rule))
    ensures AnswerAtAsWritten(data, offset, rule) == ReadsPastEnd ==> AnswerAt(data, offset, rule) == Malformed
  {
  }

  /**
   * A response with one answer whose owner name ("aaaaaaaa") ends 9 octets
   * before the end of the message is let through by the check: TYPE is read
   * from octets 22 and 23 of a 23-octet message and RDLENGTH from octets 30
   * and 31. The corrected step reports a malformed answer.
   */
  lemma {:induction false} AnswerGuardOverreadsAsWritten(rule: LabelRule)
    ensures var m := Header(0, 0, 0, 1, 0, 0) + [8, 97, 97, 97, 97, 97, 97, 97, 97, 0] + [0];
            |m| == 23 && HeaderAccepted(m) && ReadU16(m, 4) == 0 && ReadU16(m, 6) == 1
            && AnswerAtAsWritten(m, HeaderSize, rule) == ReadsPastEnd
            && AnswerAt(m, HeaderSize, rule) == Malformed
  {
    var m := Header(0, 0, 0, 1, 0, 0) + [8, 97, 97, 97, 97, 97, 97, 97, 97, 0] + [0];
    HeaderFields(0, 0, 0, 1, 0, 0, [8, 97, 97, 97, 97, 97, 97, 97, 97, 0] + [0]);
    OneLabelName(m, HeaderSize, rule);
  }

  /** The eight-octet label at offset 12 of that message decodes, ending at offset 22. */
  lemma {:induction false} OneLabelName(m: seq<Byte>, at: nat, rule: LabelRule)
    requires at + 10 <= |m| && m[at] == 8 && m[at + 9] == 0
    requires forall i :: at < i < at + 9 ==> m[i] == 97
    ensures DecodeNameAt(m, at, rule).Decoded? && DecodeNameAt(m, at, rule).offset == at + 10
  {
    LabelStep(m, at, [], false, MaxJumps, at, rule);
    var c := AfterLabel(m, at, [], rule);
    assert c.pos == at + 9;
  }

  // ------------------------------------------------------------------
  // parseResponse
  // ------------------------------------------------------------------

  /** Whether a parse got through, and the list it leaves in the caller's `results` or `records`. */
  datatype Outcome<T> = Outcome(ok: bool, items: seq<T>)

  /** What the answer loop of `parseResponse` appends, and whether it reached the last answer. */
  datatype Scan = Scan(complete: bool, found: seq<string>)

  /**
   * The entry `parseResponse` appends for the record `r`, if any: a record of
   * the requested type only; for NS and CNAME the name its RDATA holds, when
   * it decodes; for A the text of a 4-octet address, for AAAA of a 16-octet
   * one.
   */
  function ResponseEntry(data: seq<Byte>, r: AnswerStep, t: RecordType, ntop: AddressPrinter, rule: LabelRule): Option<string>
    requires r.Record? && r.rdata + r.rdlength <= |data|
  {
    if r.rtype != TypeCode(t) then None
    else if t == NS || t == CNAME then
      match DecodeNameAt(data, r.rdata, rule)
      case Decoded(name, _) => Some(name)
      case Failed => None
    else if t == A && r.rdlength == 4 then Some(ntop(Inet, data[r.rdata..r.rdata + 4]))
    else if t == AAAA && r.rdlength == 16 then Some(ntop(Inet6, data[r.rdata..r.rdata + 16]))
    else None
  }

  function OptionList<T>(o: Option<T>): seq<T>
  {
    if o.Some? then [o.value] else []
  }

  /** The answer loop of `parseResponse` over `k` answers from `offset`. */
  function ScanAnswers(data: seq<Byte>, offset: nat, k: nat, t: RecordType, ntop: AddressPrinter, rule: LabelRule): Scan
    decreases k, 1
  {
    if k == 0 then Scan(true, []) else ScanAnswersFrom(data, AnswerAt(data, offset, rule), k, t, ntop, rule)
  }

  /** The same loop once the first of its `k` answers has been read as `r`. */
  function ScanAnswersFrom(data: seq<Byte>, r: AnswerStep, k: nat, t: RecordType, ntop: AddressPrinter, rule: LabelRule): Scan
    requires k > 0
    requires r.Record? ==> r.rdata + r.rdlength <= |data|
    decreases k, 0
  {
    if r.Malformed? then Scan(false, [])
    else
      var rest := ScanAnswers(data, r.rdata + r.rdlength, k - 1, t, ntop, rule);
      Scan(rest.complete, OptionList(ResponseEntry(data, r, t, ntop, rule)) + rest.found)
  }

  /** `results`, extended by what a scan found; the verdict is the scan's. */
  function Continue(results: seq<string>, s: Scan): Outcome<string>
  {
    Outcome(s.complete, results + s.found)
  }

  /**
   * `parseResponse(data, len, results, type)` with `results` holding `before`
   * on entry. A message shorter than a header or with a non-zero RCODE is
   * refused and `results` left alone; a question or answer that cannot be
   * read makes it fail; otherwise it succeeds exactly when `results` ends up
   * non-empty. It only ever appends to `results`. Names are read with the
   * label rule `rule`: `StallWhenFull` as written, `SkipWhenFull` corrected.
   */
  function Response(data: seq<Byte>, t: RecordType, before: seq<string>, ntop: AddressPrinter, rule: LabelRule): (r: Outcome<string>)
    ensures !HeaderAccepted(data) ==> r == Outcome(false, before)
    ensures r.ok ==> |r.items| > 0
    ensures |before| <= |r.items| && r.items[..|before|] == before
  {
    if !HeaderAccepted(data) then Outcome(false, before)
    else
      match SkipQuestions(data, HeaderSize, ReadU16(data, 4), rule)
      case None => Outcome(false, before)
      case Some(start) =>
        var s := ScanAnswers(data, start, ReadU16(data, 6), t, ntop, rule);
        Outcome(s.complete && |before + s.found| > 0, before + s.found)
  }

  /**
   * What `parseResponse` may append for type `t`: the text of a 4-octet
   * address for A, of a 16-octet address for AAAA, a decoded name of at
   * most 255 characters for NS and CNAME.
   */
  ghost predicate EntryOfType(t: RecordType, ntop: AddressPrinter, x: string)
  {
    match t
    case A => exists o: seq<Byte> :: |o| == 4 && x == ntop(Inet, o)
    case AAAA => exists o: seq<Byte> :: |o| == 16 && x == ntop(Inet6, o)
    case NS => |x| <= MaxText
    case CNAME => |x| <= MaxText
  }

  /** Every entry of `s` is one `parseResponse` may append for type `t`. */
  ghost predicate AllOfType(t: RecordType, ntop: AddressPrinter, s: seq<string>)
  {
    forall i :: 0 <= i < |s| ==> EntryOfType(t, ntop, s[i])
  }

  /** Every entry the answer loop finds is one of the requested type. */
  lemma {:induction false} ScanTyped(data: seq<Byte>, offset: nat, k: nat, t: RecordType, ntop: AddressPrinter, rule: LabelRule)
    ensures AllOfType(t, ntop, ScanAnswers(data, offset, k, t, ntop, rule).found)
    decreases k
  {
    if k > 0 && AnswerAt(data, offset, rule).Record? {
      var r := AnswerAt(data, offset, rule);
      var e := ResponseEntry(data, r, t, ntop, rule);
      var rest := ScanAnswers(data, r.rdata + r.rdlength, k - 1, t, ntop, rule);
      ScanTyped(data, r.rdata + r.rdlength, k - 1, t, ntop, rule);
      var found := OptionList(e) + rest.found;
      assert ScanAnswers(data, offset, k, t, ntop, rule).found == found;
      if e.Some? {
        if t == A {
          assert EntryOfType(t, ntop, e.value) by {
            var o := data[r.rdata..r.rdata + 4];
            assert |o| == 4 && e.value == ntop(Inet, o);
          }
        } else if t == AAAA {
          assert EntryOfType(t, ntop, e.value) by {
            var o := data[r.rdata..r.rdata + 16];
            assert |o| == 16 && e.value == ntop(Inet6, o);
          }
        } else {
          var d := DecodeFrom(data, r.rdata, [], false, MaxJumps, r.rdata, rule);
          assert d.Decoded? && d.name == e.value;
        }
      }
      forall i | 0 <= i < |found|
        ensures EntryOfType(t, ntop, found[i])
      {
        if i >= |OptionList(e)| {
          assert found[i] == rest.found[i - |OptionList(e)|];
        } else {
          assert found[i] == e.value;
        }
      }
    }
  }

  /**
   * `parseResponse` appends only entries of the requested type: address
   * texts of the right length for A and AAAA, names for NS and CNAME.
   */
  lemma {:induction false} ResponseTyped(data: seq<Byte>, t: RecordType, before: seq<string>, ntop: AddressPrinter, rule: LabelRule)
    ensures var r := Response(data, t, before, ntop, rule);
            forall i :: |before| <= i < |r.items| ==> EntryOfType(t, ntop, r.items[i])
  {
    if HeaderAccepted(data) {
      var start := SkipQuestions(data, HeaderSize, ReadU16(data, 4), rule);
      if start.Some? {
        var s := ScanAnswers(data, start.value, ReadU16(data, 6), t, ntop, rule);
        ScanTyped(data, start.value, ReadU16(data, 6), t, ntop, rule);
        var items := before + s.found;
        forall i | |before| <= i < |items|
          ensures EntryOfType(t, ntop, items[i])
        {
          assert items[i] == s.found[i - |before|];
        }
      }
    }
  }

  /**
   * The verdict of `parseResponse`: a question that cannot be read, or an
   * answer cut short or running past the message, makes it fail with
   * `results` as they were; once every answer has been read, it succeeds
   * exactly when `results` is non-empty.
   */
  lemma {:induction false} ResponseComplete(data: seq<Byte>, t: RecordType, before: seq<string>, ntop: AddressPrinter, rule: LabelRule)
    requires HeaderAccepted(data)
    ensures var r := Response(data, t, before, ntop, rule);
            SkipQuestions(data, HeaderSize, ReadU16(data, 4), rule).None? ==> r == Outcome(false, before)
    ensures var r := Response(data, t, before, ntop, rule);
            var start := SkipQuestions(data, HeaderSize, ReadU16(data, 4), rule);
            start.Some? ==>
              var s := ScanAnswers(data, start.value, ReadU16(data, 6), t, ntop, rule);
              && r.items == before + s.found
              && (!s.complete ==> !r.ok)
              && (s.complete ==> (r.ok <==> |r.items| > 0))
  {
  }

  /** The question loop shared by both parsers: the offset after the questions, or a failure. */
  method SkipQuestionSection(data: seq<Byte>, qdcount: U16, rule: LabelRule) returns (ok: bool, offset: nat)
    ensures ok <==> SkipQuestions(data, HeaderSize, qdcount, rule).Some?
    ensures ok ==> offset == SkipQuestions(data, HeaderSize, qdcount, rule).value
  {
    offset := HeaderSize;
    if |data| < HeaderSize {
      assert SkipQuestions(data, offset, 0, rule).None?;
    }
    var left: nat := qdcount;
    while left > 0
      invariant SkipQuestions(data, offset, left, rule) == SkipQuestions(data, HeaderSize, qdcount, rule)
    {
      var decoded, next, _ := DecodeName(data, offset, rule);
      if !decoded {
        return false, offset;
      }
      offset := next + 4;
      if offset > |data| {
        return false, offset;
      }
      left := left - 1;
    }
    ok := offset <= |data|;
  }

  /**
   * `parseResponse`, with `results` holding `before` on entry and `ntop`
   * standing for `uv_inet_ntop`; `decodeName` follows the label rule `rule`.
   */
  method ParseResponse(data: seq<Byte>, t: RecordType, before: seq<string>, ntop: AddressPrinter, rule: LabelRule)
    returns (ok: bool, results: seq<string>)
    ensures Outcome(ok, results) == Response(data, t, before, ntop, rule)
  {
    results := before;
    if |data| < HeaderSize {
      return false, results;
    }
    var flags := ReadU16(data, 2);
    var qdcount := ReadU16(data, 4);
    var ancount := ReadU16(data, 6);
    if flags % 16 != 0 {
      return false, results;
    }
    var offset;
    ok, offset := SkipQuestionSection(data, qdcount, rule);
    if !ok {
      return false, results;
    }
    ok, results := AnswerSection(data, offset, ancount, t, ntop, rule, results);
    ok := ok && |results| > 0;
  }

  /**
   * The answer loop of `parseResponse` over `ancount` answers from `offset`,
   * appending to `results`: it stops with false at the first malformed answer.
   */
  method AnswerSection(data: seq<Byte>, offset: nat, ancount: nat, t: RecordType, ntop: AddressPrinter,
                       rule: LabelRule, before: seq<string>)
    returns (ok: bool, results: seq<string>)
    ensures Outcome(ok, results) == Continue(before, ScanAnswers(data, offset, ancount, t, ntop, rule))
  {
    ghost var scan := Continue(before, ScanAnswers(data, offset, ancount, t, ntop, rule));
    results := before;
    var at, left := offset, ancount;
    while left > 0
      invariant Continue(results, ScanAnswers(data, at, left, t, ntop, rule)) == scan
    {
      ok, at, results := AnswerTurn(data, at, left, t, ntop, rule, results);
      if !ok {
        return false, results;
      }
      left := left - 1;
    }
    assert results + [] == results;
    ok := true;
  }

  /**
   * One turn of `parseResponse`'s answer loop with `k` answers left: on
   * success the scan of the remaining answers, after the new `results`, is
   * the scan of the `k` answers after the old ones; on failure the scan
   * fails with `results` as they are.
   */
  method AnswerTurn(data: seq<Byte>, offset: nat, k: nat, t: RecordType, ntop: AddressPrinter, rule: LabelRule,
                    results: seq<string>)
    returns (ok: bool, next: nat, extended: seq<string>)
    requires k > 0
    ensures ok ==> (Continue(extended, ScanAnswers(data, next, k - 1, t, ntop, rule))
                    == Continue(results, ScanAnswers(data, offset, k, t, ntop, rule)))
    ensures !ok ==> extended == results && Continue(results, ScanAnswers(data, offset, k, t, ntop, rule)) == Outcome(false, results)
  {
    var entry;
    ok, next, entry := ReadAnswer(data, offset, t, ntop, rule);
    if !ok {
      assert results + [] == results;
      return false, next, results;
    }
    ScanStep(data, offset, k, t, ntop, rule, results, next, entry);
    extended := results + OptionList(entry);
  }

  /** One answer of the scan: what it contributes, then the scan of the rest. */
  lemma {:induction false} ScanStep(data: seq<Byte>, offset: nat, k: nat, t: RecordType, ntop: AddressPrinter, rule: LabelRule,
                 results: seq<string>, next: nat, entry: Option<string>)
    requires k > 0 && AnswerAt(data, offset, rule).Record?
    requires next == AnswerAt(data, offset, rule).rdata + AnswerAt(data, offset, rule).rdlength
    requires entry == ResponseEntry(data, AnswerAt(data, offset, rule), t, ntop, rule)
    ensures Continue(results, ScanAnswers(data, offset, k, t, ntop, rule))
         == Continue(results + OptionList(entry), ScanAnswers(data, next, k - 1, t, ntop, rule))
  {
    var rest := ScanAnswers(data, next, k - 1, t, ntop, rule);
    assert results + (OptionList(entry) + rest.found) == results + OptionList(entry) + rest.found;
  }

  /**
   * The body of `parseResponse`'s answer loop: the owner name, TYPE and
   * RDLENGTH, the bounds check on RDATA, the entry for a record of the
   * requested type, and the offset past RDATA.
   */
  method ReadAnswer(data: seq<Byte>, offset: nat, t: RecordType, ntop: AddressPrinter, rule: LabelRule)
    returns (ok: bool, next: nat, entry: Option<string>)
    ensures ok <==> AnswerAt(data, offset, rule).Record?
    ensures ok ==> next == AnswerAt(data, offset, rule).rdata + AnswerAt(data, offset, rule).rdlength
                   && entry == ResponseEntry(data, AnswerAt(data, offset, rule), t, ntop, rule)
  {
    next, entry := offset, None;
    if offset + 10 > |data| {
      return false, next, entry;
    }
    var decoded, end, _ := DecodeName(data, offset, rule);
    if !decoded || end + 10 > |data| {
      return false, next, entry;
    }
    var atype := ReadU16(data, end);
    var rdlength := ReadU16(data, end + 8);
    var at := end + 10;
    if at + rdlength > |data| {
      return false, next, entry;
    }
    if atype == TypeCode(t) {
      if t == NS || t == CNAME {
        var got, _, name := DecodeName(data, at, rule);
        if got {
          entry := Some(name);
        }
      } else if t == A && rdlength == 4 {
        entry := Some(ntop(Inet, data[at..at + 4]));
      } else if t == AAAA && rdlength == 16 {
        entry := Some(ntop(Inet6, data[at..at + 16]));
      }
    }
    return true, at + rdlength, entry;
  }

  // ------------------------------------------------------------------
  // parseAddressRecords
  // ------------------------------------------------------------------

  /** An entry of `DnsRecords`: the address family and the address octets. */
  datatype Address = Address(family: Family, octets: seq<Byte>)

  /** An address a socket family allows: IPv4 unless only IPv6 is asked for, IPv6 unless only IPv4. */
  predicate Allowed(family: Family, a: Address)
  {
    (a.family == Inet && |a.octets| == 4 && family != Inet6)
    || (a.family == Inet6 && |a.octets| == 16 && family != Inet)
  }

  /**
   * What `parseAddressRecords` keeps of the record `r`: the 4 octets of an A
   * record or the 16 of an AAAA record, when `family` allows it.
   */
  function KeptAddress(data: seq<Byte>, r: AnswerStep, family: Family): (kept: seq<Address>)
    requires r.Record? && r.rdata + r.rdlength <= |data|
    ensures kept == [] || (|kept| == 1 && Allowed(family, kept[0]))
  {
    if r.rtype == TypeCode(A) && r.rdlength == 4 && (family == Unspec || family == Inet) then
      [Address(Inet, data[r.rdata..r.rdata + 4])]
    else if r.rtype == TypeCode(AAAA) && r.rdlength == 16 && (family == Unspec || family == Inet6) then
      [Address(Inet6, data[r.rdata..r.rdata + 16])]
    else []
  }

  /**
   * The answer loop of `parseAddressRecords` over `k` answers from `offset`:
   * a malformed answer ends the loop, keeping the addresses collected before it.
   */
  function ScanAddresses(data: seq<Byte>, offset: nat, k: nat, family: Family, rule: LabelRule): seq<Address>
    decreases k, 1
  {
    if k == 0 then [] else ScanAddressesFrom(data, AnswerAt(data, offset, rule), k, family, rule)
  }

  /** The same loop once the first of its `k` answers has been read as `r`. */
  function ScanAddressesFrom(data: seq<Byte>, r: AnswerStep, k: nat, family: Family, rule: LabelRule): seq<Address>
    requires k > 0
    requires r.Record? ==> r.rdata + r.rdlength <= |data|
    decreases k, 0
  {
    if r.Malformed? then []
    else KeptAddress(data, r, family) + ScanAddresses(data, r.rdata + r.rdlength, k - 1, family, rule)
  }

  /**
   * `parseAddressRecords(data, len, records, ai_family)` with `records`
   * holding `before` on entry. The header and question checks are those of
   * `parseResponse`; `records` is replaced only when an address was kept,
   * and the call succeeds exactly then. Names are read with the label rule
   * `rule`.
   */
  function AddressRecords(data: seq<Byte>, family: Family, before: seq<Address>, rule: LabelRule): (r: Outcome<Address>)
    ensures !r.ok ==> r.items == before
    ensures r.ok ==> |r.items| > 0
    ensures !HeaderAccepted(data) ==> !r.ok
  {
    if !HeaderAccepted(data) then Outcome(false, before)
    else
      match SkipQuestions(data, HeaderSize, ReadU16(data, 4), rule)
      case None => Outcome(false, before)
      case Some(start) =>
        var found := ScanAddresses(data, start, ReadU16(data, 6), family, rule);
        if found == [] then Outcome(false, before) else Outcome(true, found)
  }

  /** Every address the answer loop keeps is an A or AAAA address the family allows. */
  lemma {:induction false} ScanAddressesAllowed(data: seq<Byte>, offset: nat, k: nat, family: Family, rule: LabelRule)
    ensures AllAllowed(family, ScanAddresses(data, offset, k, family, rule))
    decreases k
  {
    if k > 0 && AnswerAt(data, offset, rule).Record? {
      var r := AnswerAt(data, offset, rule);
      var next := r.rdata + r.rdlength;
      var kept := KeptAddress(data, r, family);
      ScanAddressesStep(data, offset, k, family, rule, next, kept);
      ScanAddressesAllowed(data, next, k - 1, family, rule);
      AllAllowedConcat(family, kept, ScanAddresses(data, next, k - 1, family, rule));
    }
  }

  /** Every address in `s` is one the family allows. */
  predicate AllAllowed(family: Family, s: seq<Address>)
  {
    forall i :: 0 <= i < |s| ==> Allowed(family, s[i])
  }

  lemma {:induction false} AllAllowedConcat(family: Family, a: seq<Address>, b: seq<Address>)
    requires AllAllowed(family, a) && AllAllowed(family, b)
    ensures AllAllowed(family, a + b)
  {
    forall i | 0 <= i < |a + b|
      ensures Allowed(family, (a + b)[i])
    {
      if i >= |a| {
        assert (a + b)[i] == b[i - |a|];
      }
    }
  }

  /** A successful `parseAddressRecords` leaves only addresses the family allows. */
  lemma {:induction false} AddressRecordsAllowed(data: seq<Byte>, family: Family, before: seq<Address>, rule: LabelRule)
    ensures var r := AddressRecords(data, family, before, rule);
            r.ok ==> AllAllowed(family, r.items)
  {
    if HeaderAccepted(data) {
      var start := SkipQuestions(data, HeaderSize, ReadU16(data, 4), rule);
      if start.Some? {
        ScanAddressesAllowed(data, start.value, ReadU16(data, 6), family, rule);
      }
    }
  }

  /**
   * `parseAddressRecords`. The addresses are collected as the code collects
   * its `addrinfo` entries; `DnsRecords` is taken to hold them in order.
   * `decodeName` follows the label rule `rule`.
   */
  method ParseAddressRecords(data: seq<Byte>, family: Family, before: seq<Address>, rule: LabelRule)
    returns (ok: bool, records: seq<Address>)
    ensures Outcome(ok, records) == AddressRecords(data, family, before, rule)
  {
    records := before;
    if |data| < HeaderSize {
      return false, records;
    }
    var flags := ReadU16(data, 2);
    var qdcount := ReadU16(data, 4);
    var ancount := ReadU16(data, 6);
    if flags % 16 != 0 {
      return false, records;
    }
    var offset;
    ok, offset := SkipQuestionSection(data, qdcount, rule);
    if !ok {
      return false, records;
    }
    var infos := AddressSection(data, offset, ancount, family, rule);
    if infos == [] {
      return false, records;
    }
    records := infos;
    ok := true;
  }

  /** The answer loop of `parseAddressRecords` over `ancount` answers from `offset`. */
  method AddressSection(data: seq<Byte>, offset: nat, ancount: nat, family: Family, rule: LabelRule)
    returns (infos: seq<Address>)
    ensures infos == ScanAddresses(data, offset, ancount, family, rule)
  {
    ghost var all := ScanAddresses(data, offset, ancount, family, rule);
    infos := [];
    var at, left := offset, ancount;
    while left > 0
      invariant infos + ScanAddresses(data, at, left, family, rule) == all
    {
      var more;
      more, at, infos := AddressTurn(data, at, left, family, rule, infos);
      if !more {
        break;
      }
      left := left - 1;
    }
    assert infos + [] == infos;
  }

  /**
   * One turn of `parseAddressRecords`'s answer loop with `k` answers left:
   * what it keeps, followed by the scan of the rest, is the scan of the `k`
   * answers; where the loop breaks, that scan is empty.
   */
  method AddressTurn(data: seq<Byte>, offset: nat, k: nat, family: Family, rule: LabelRule, infos: seq<Address>)
    returns (more: bool, next: nat, extended: seq<Address>)
    requires k > 0
    ensures more ==> extended + ScanAddresses(data, next, k - 1, family, rule) == infos + ScanAddresses(data, offset, k, family, rule)
    ensures !more ==> extended == infos && infos + ScanAddresses(data, offset, k, family, rule) == infos
  {
    var kept;
    more, next, kept := ReadAddress(data, offset, family, rule);
    if more {
      ghost var rest := ScanAddresses(data, next, k - 1, family, rule);
      ScanAddressesStep(data, offset, k, family, rule, next, kept);
      assert infos + (kept + rest) == infos + kept + rest;
      extended := infos + kept;
    } else {
      assert infos + [] == infos;
      extended := infos;
    }
  }

  /** The scan of `k` answers, when the first is a record: what it keeps, then the scan of the rest. */
  lemma {:induction false} ScanAddressesStep(data: seq<Byte>, offset: nat, k: nat, family: Family, rule: LabelRule,
                                             next: nat, kept: seq<Address>)
    requires k > 0 && AnswerAt(data, offset, rule).Record?
    requires next == AnswerAt(data, offset, rule).rdata + AnswerAt(data, offset, rule).rdlength
    requires kept == KeptAddress(data, AnswerAt(data, offset, rule), family)
    ensures ScanAddresses(data, offset, k, family, rule) == kept + ScanAddresses(data, next, k - 1, family, rule)
  {
  }

  /** The body of `parseAddressRecords`'s answer loop: false where the loop breaks. */
  method ReadAddress(data: seq<Byte>, offset: nat, family: Family, rule: LabelRule)
    returns (more: bool, next: nat, kept: seq<Address>)
    ensures more <==> AnswerAt(data, offset, rule).Record?
    ensures more ==> next == AnswerAt(data, offset, rule).rdata + AnswerAt(data, offset, rule).rdlength
                     && kept == KeptAddress(data, AnswerAt(data, offset, rule), family)
  {
    next, kept := offset, [];
    if offset + 10 > |data| {
      return false, next, kept;
    }
    var decoded, end, _ := DecodeName(data, offset, rule);
    if !decoded || end + 10 > |data| {
      return false, next, kept;
    }
    var atype := ReadU16(data, end);
    var rdlength := ReadU16(data, end + 8);
    var at := end + 10;
    if at + rdlength > |data| {
      return false, next, kept;
    }
    if atype == TypeCode(A) && rdlength == 4 && (family == Unspec || family == Inet) {
      kept := [Address(Inet, data[at..at + 4])];
    } else if atype == TypeCode(AAAA) && rdlength == 16 && (family == Unspec || family == Inet6) {
      kept := [Address(Inet6, data[at..at + 16])];
    }
    return true, at + rdlength, kept;
  }

  // ------------------------------------------------------------------
  // Responses the parsers read back
  // ------------------------------------------------------------------

  /** A resource record: owner name, TYPE, CLASS IN, TTL, RDLENGTH and RDATA (RFC 1035 section 4.1.3). */
  function ResourceRecord(owner: seq<Byte>, rtype: U16, ttl: U32, rdata: seq<Byte>): (rr: seq<Byte>)
    requires |rdata| < 0x1_0000
    ensures |rr| == |owner| + 10 + |rdata|
  {
    owner + U16Bytes(rtype) + U16Bytes(ClassIN) + U32Bytes(ttl) + U16Bytes(|rdata|) + rdata
  }

  /**
   * The question loop steps over a question whose name is well formed: as
   * written when the name has at most 255 characters, corrected always.
   */
  lemma {:induction false} SkipQuestion(prefix: seq<Byte>, name: string, t: RecordType, suffix: seq<Byte>, rule: LabelRule)
    requires WellFormedName(name)
    requires rule == SkipWhenFull || |name| <= MaxText
    ensures NameEncoding(name).Some?
    ensures var q := Question(NameEncoding(name).value, t);
            SkipQuestions(prefix + q + suffix, |prefix|, 1, rule) == Some(|prefix| + |q|)
  {
    DecodeEncodedName(prefix, name, U16Bytes(TypeCode(t)) + U16Bytes(ClassIN) + suffix, rule);
    var enc := NameEncoding(name).value;
    var q := Question(enc, t);
    assert prefix + q + suffix == prefix + enc + (U16Bytes(TypeCode(t)) + U16Bytes(ClassIN) + suffix);
  }

  /**
   * A built query passes the question loop and ends where the message ends;
   * the loop as written does so when the name has at most 255 characters.
   */
  lemma {:induction false} QuerySkipped(id: U16, name: string, t: RecordType, rule: LabelRule)
    requires WellFormedName(name)
    requires rule == SkipWhenFull || |name| <= MaxText
    ensures var q := Query(id, name, t);
            HeaderAccepted(q) && SkipQuestions(q, HeaderSize, ReadU16(q, 4), rule) == Some(|q|)
  {
    SkipQuestion(Header(id, QueryFlags, 1, 0, 0, 0), name, t, [], rule);
    var q := Query(id, name, t);
    var enc := NameEncoding(name).value;
    assert q == Header(id, QueryFlags, 1, 0, 0, 0) + Question(enc, t) + [];
    HeaderFields(id, QueryFlags, 1, 0, 0, 0, Question(enc, t));
  }

  /**
   * One answer step reads a record's TYPE and finds its RDATA where it was
   * written; as written, when the owner name has at most 255 characters.
   */
  lemma {:induction false} AnswerOfRecord(prefix: seq<Byte>, owner: string, rtype: U16, ttl: U32, rdata: seq<Byte>, suffix: seq<Byte>,
                                          rule: LabelRule)
    requires WellFormedName(owner) && |rdata| < 0x1_0000
    requires rule == SkipWhenFull || |owner| <= MaxText
    ensures NameEncoding(owner).Some?
    ensures var enc := NameEncoding(owner).value;
            var data := prefix + ResourceRecord(enc, rtype, ttl, rdata) + suffix;
            var at := |prefix| + |enc| + 10;
            AnswerAt(data, |prefix|, rule) == Record(rtype, at, |rdata|) && data[at..at + |rdata|] == rdata
  {
    var fields := U16Bytes(rtype) + U16Bytes(ClassIN) + U32Bytes(ttl) + U16Bytes(|rdata|);
    DecodeEncodedName(prefix, owner, fields + rdata + suffix, rule);
    var enc := NameEncoding(owner).value;
    RecordLayout(prefix, enc, rtype, ttl, rdata, suffix);
    var head := prefix + enc;
    ReadU16OfBytes(head, rtype, U16Bytes(ClassIN) + U32Bytes(ttl) + U16Bytes(|rdata|) + rdata + suffix);
    ReadU16OfBytes(head + U16Bytes(rtype) + U16Bytes(ClassIN) + U32Bytes(ttl), |rdata|, rdata + suffix);
  }

  /** The same record message cut at the owner name, at TYPE and at RDLENGTH. */
  lemma {:induction false} RecordLayout(prefix: seq<Byte>, enc: seq<Byte>, rtype: U16, ttl: U32, rdata: seq<Byte>, suffix: seq<Byte>)
    requires |rdata| < 0x1_0000
    ensures var data := prefix + ResourceRecord(enc, rtype, ttl, rdata) + suffix;
            var fields := U16Bytes(rtype) + U16Bytes(ClassIN) + U32Bytes(ttl) + U16Bytes(|rdata|);
            var head := prefix + enc;
            var at := |head| + 10;
            && data == prefix + enc + (fields + rdata + suffix)
            && data == head + U16Bytes(rtype) + (U16Bytes(ClassIN) + U32Bytes(ttl) + U16Bytes(|rdata|) + rdata + suffix)
            && data == head + U16Bytes(rtype) + U16Bytes(ClassIN) + U32Bytes(ttl) + U16Bytes(|rdata|) + (rdata + suffix)
            && data[at..at + |rdata|] == rdata
  {
  }

  /**
   * A response with one question and one address record, with RCODE zero:
   * `parseAddressRecords` returns exactly that address when the family
   * allows it, and fails, leaving the records alone, when it does not. The
   * code as written does so when both names have at most 255 characters,
   * the corrected parser always.
   */
  lemma {:induction false} OneAddressRecord(id: U16, flags: U16, qname: string, qt: RecordType, owner: string, ttl: U32,
                         octets: seq<Byte>, family: Family, before: seq<Address>, rule: LabelRule)
    requires flags % 16 == 0 && WellFormedName(qname) && WellFormedName(owner)
    requires rule == SkipWhenFull || (|qname| <= MaxText && |owner| <= MaxText)
    requires |octets| == 4 || |octets| == 16
    ensures NameEncoding(qname).Some? && NameEncoding(owner).Some?
    ensures var a := Address(if |octets| == 4 then Inet else Inet6, octets);
            var rtype := if |octets| == 4 then TypeCode(A) else TypeCode(AAAA);
            var m := Header(id, flags, 1, 1, 0, 0) + Question(NameEncoding(qname).value, qt)
                     + ResourceRecord(NameEncoding(owner).value, rtype, ttl, octets);
            AddressRecords(m, family, before, rule) == if Allowed(family, a) then Outcome(true, [a]) else Outcome(false, before)
  {
    var rtype := if |octets| == 4 then TypeCode(A) else TypeCode(AAAA);
    WellFormedEncodes(qname);
    WellFormedEncodes(owner);
    var m := Header(id, flags, 1, 1, 0, 0) + Question(NameEncoding(qname).value, qt)
             + ResourceRecord(NameEncoding(owner).value, rtype, ttl, octets);
    var start, at := OneRecordMessage(id, flags, qname, qt, owner, rtype, ttl, octets, m, rule);
    AddressesOfOneRecord(m, start, rtype, at, octets, family, before, rule);
  }

  /**
   * A response with one question and one record of type `t`, with RCODE
   * zero: `parseResponse` appends the text of an A or AAAA address of the
   * right length, and appends nothing for an A record of another length.
   * The code as written does so when both names have at most 255
   * characters, the corrected parser always.
   */
  lemma {:induction false} OneAnswer(id: U16, flags: U16, qname: string, qt: RecordType, owner: string, ttl: U32,
                  t: RecordType, rdata: seq<Byte>, ntop: AddressPrinter, before: seq<string>, rule: LabelRule)
    requires flags % 16 == 0 && WellFormedName(qname) && WellFormedName(owner) && |rdata| < 0x1_0000
    requires rule == SkipWhenFull || (|qname| <= MaxText && |owner| <= MaxText)
    ensures NameEncoding(qname).Some? && NameEncoding(owner).Some?
    ensures var m := Header(id, flags, 1, 1, 0, 0) + Question(NameEncoding(qname).value, qt)
                     + ResourceRecord(NameEncoding(owner).value, TypeCode(t), ttl, rdata);
            && (t == A && |rdata| == 4 ==> Response(m, t, before, ntop, rule) == Outcome(true, before + [ntop(Inet, rdata)]))
            && (t == AAAA && |rdata| == 16 ==> Response(m, t, before, ntop, rule) == Outcome(true, before + [ntop(Inet6, rdata)]))
            && (t == A && |rdata| != 4 ==> Response(m, t, before, ntop, rule) == Outcome(|before| > 0, before))
  {
    WellFormedEncodes(qname);
    WellFormedEncodes(owner);
    var m := Header(id, flags, 1, 1, 0, 0) + Question(NameEncoding(qname).value, qt)
             + ResourceRecord(NameEncoding(owner).value, TypeCode(t), ttl, rdata);
    var start, at := OneRecordMessage(id, flags, qname, qt, owner, TypeCode(t), ttl, rdata, m, rule);
    ResponseOfOneRecord(m, start, t, at, rdata, before, ntop, rule);
  }

  /**
   * A message whose only answer is the record `AnswerAt(data, start, rule)`, of
   * type `t` and with RDATA `rdata`: `parseResponse` appends that record's
   * address when its length fits the type, and nothing otherwise.
   */
  lemma {:induction false} ResponseOfOneRecord(data: seq<Byte>, start: nat, t: RecordType, at: nat, rdata: seq<Byte>,
                                               before: seq<string>, ntop: AddressPrinter, rule: LabelRule)
    requires HeaderAccepted(data) && ReadU16(data, 6) == 1
    requires SkipQuestions(data, HeaderSize, ReadU16(data, 4), rule) == Some(start)
    requires |rdata| < 0x1_0000
    requires AnswerAt(data, start, rule) == Record(TypeCode(t), at, |rdata|) && data[at..at + |rdata|] == rdata
    ensures t == A && |rdata| == 4 ==> Response(data, t, before, ntop, rule) == Outcome(true, before + [ntop(Inet, rdata)])
    ensures t == AAAA && |rdata| == 16 ==> Response(data, t, before, ntop, rule) == Outcome(true, before + [ntop(Inet6, rdata)])
    ensures t == A && |rdata| != 4 ==> Response(data, t, before, ntop, rule) == Outcome(|before| > 0, before)
  {
    var r := AnswerAt(data, start, rule);
    OneRecordScan(data, start, t, before, ntop, rule);
    var e := OptionList(ResponseEntry(data, r, t, ntop, rule));
    EntryOfRecord(data, r, t, ntop, rdata, rule);
    if t == A && |rdata| != 4 {
      assert before + e == before;
    }
  }

  /** `parseResponse` over a message with one answer, the record at `start`, appends that record's entry. */
  lemma {:induction false} OneRecordScan(data: seq<Byte>, start: nat, t: RecordType, before: seq<string>, ntop: AddressPrinter,
                                         rule: LabelRule)
    requires HeaderAccepted(data) && ReadU16(data, 6) == 1
    requires SkipQuestions(data, HeaderSize, ReadU16(data, 4), rule) == Some(start) && AnswerAt(data, start, rule).Record?
    ensures var e := OptionList(ResponseEntry(data, AnswerAt(data, start, rule), t, ntop, rule));
            Response(data, t, before, ntop, rule) == Outcome(|before + e| > 0, before + e)
  {
    var r := AnswerAt(data, start, rule);
    var e := OptionList(ResponseEntry(data, r, t, ntop, rule));
    assert ScanAnswers(data, r.rdata + r.rdlength, 0, t, ntop, rule) == Scan(true, []);
    assert e + [] == e;
  }

  /** The entry of an A or AAAA record is the text of its address when the length fits the type, and none otherwise. */
  lemma EntryOfRecord(data: seq<Byte>, r: AnswerStep, t: RecordType, ntop: AddressPrinter, rdata: seq<Byte>, rule: LabelRule)
    requires r.Record? && r.rtype == TypeCode(t) && r.rdlength == |rdata|
    requires r.rdata + |rdata| <= |data| && data[r.rdata..r.rdata + |rdata|] == rdata
    ensures var e := OptionList(ResponseEntry(data, r, t, ntop, rule));
            && (t == A && |rdata| == 4 ==> e == [ntop(Inet, rdata)])
            && (t == AAAA && |rdata| == 16 ==> e == [ntop(Inet6, rdata)])
            && (t == A && |rdata| != 4 ==> e == [])
  {
  }

  /** The same message for `parseAddressRecords`: it keeps the record's address if the family allows it. */
  lemma {:induction false} AddressesOfOneRecord(data: seq<Byte>, start: nat, rtype: U16, at: nat, octets: seq<Byte>,
                                                family: Family, before: seq<Address>, rule: LabelRule)
    requires HeaderAccepted(data) && ReadU16(data, 6) == 1
    requires SkipQuestions(data, HeaderSize, ReadU16(data, 4), rule) == Some(start)
    requires |octets| == 4 || |octets| == 16
    requires rtype == if |octets| == 4 then TypeCode(A) else TypeCode(AAAA)
    requires AnswerAt(data, start, rule) == Record(rtype, at, |octets|) && data[at..at + |octets|] == octets
    ensures var a := Address(if |octets| == 4 then Inet else Inet6, octets);
            AddressRecords(data, family, before, rule) == if Allowed(family, a) then Outcome(true, [a]) else Outcome(false, before)
  {
    var r := AnswerAt(data, start, rule);
    var a := Address(if |octets| == 4 then Inet else Inet6, octets);
    assert ScanAddresses(data, r.rdata + r.rdlength, 0, family, rule) == [];
    assert KeptAddress(data, r, family) + [] == KeptAddress(data, r, family);
    if |octets| == 4 {
      assert KeptAddress(data, r, family) == if Allowed(family, a) then [a] else [];
    } else {
      assert KeptAddress(data, r, family) == if Allowed(family, a) then [a] else [];
    }
  }

  /**
   * The header and question of a one-question, one-answer response pass,
   * and the answer loop starts at the record, whose step is read back.
   */
  lemma {:induction false} OneRecordMessage(id: U16, flags: U16, qname: string, qt: RecordType, owner: string, rtype: U16, ttl: U32,
                         rdata: seq<Byte>, m: seq<Byte>, rule: LabelRule)
    returns (start: nat, at: nat)
    requires flags % 16 == 0 && WellFormedName(qname) && WellFormedName(owner) && |rdata| < 0x1_0000
    requires rule == SkipWhenFull || (|qname| <= MaxText && |owner| <= MaxText)
    requires NameEncoding(qname).Some? && NameEncoding(owner).Some?
    requires m == Header(id, flags, 1, 1, 0, 0) + Question(NameEncoding(qname).value, qt)
                  + ResourceRecord(NameEncoding(owner).value, rtype, ttl, rdata)
    ensures HeaderAccepted(m) && ReadU16(m, 6) == 1
    ensures SkipQuestions(m, HeaderSize, ReadU16(m, 4), rule) == Some(start)
    ensures at == start + |NameEncoding(owner).value| + 10
    ensures AnswerAt(m, start, rule) == Record(rtype, at, |rdata|)
    ensures m[at..at + |rdata|] == rdata
  {
    var head := Header(id, flags, 1, 1, 0, 0);
    var q := Question(NameEncoding(qname).value, qt);
    var rr := ResourceRecord(NameEncoding(owner).value, rtype, ttl, rdata);
    Regroup(head, q, rr);
    SkipQuestion(head, qname, qt, rr, rule);
    HeaderFields(id, flags, 1, 1, 0, 0, q + rr);
    start := |head| + |q|;
    at := start + |NameEncoding(owner).value| + 10;
    AnswerOfRecord(head + q, owner, rtype, ttl, rdata, [], rule);
  }

  /**
   * A response to the query for a name of five 63-octet labels (which
   * `buildQuery` accepts), echoing its question and carrying one A record
   * for the root: `parseResponse` and `parseAddressRecords` as written fail
   * at the question loop, while the corrected parsers return the address.
   */
  lemma {:induction false} OverlongQuestionRejectedAsWritten(labels: seq<string>, id: U16, flags: U16, ttl: U32,
                                                             octets: seq<Byte>, ntop: AddressPrinter,
                                                             results: seq<string>, records: seq<Address>)
    requires OverlongShape(labels) && labels[4][0] == 'a'
    requires flags % 16 == 0 && |octets| == 4
    ensures NameEncoding(Join(labels, '.')).Some?
    ensures var m := Header(id, flags, 1, 1, 0, 0) + Question(NameEncoding(Join(labels, '.')).value, A)
                     + ResourceRecord([0], TypeCode(A), ttl, octets);
            && Response(m, A, results, ntop, StallWhenFull) == Outcome(false, results)
            && Response(m, A, results, ntop, SkipWhenFull) == Outcome(true, results + [ntop(Inet, octets)])
            && AddressRecords(m, Unspec, records, StallWhenFull) == Outcome(false, records)
            && AddressRecords(m, Unspec, records, SkipWhenFull) == Outcome(true, [Address(Inet, octets)])
  {
    var qname := Join(labels, '.');
    OverlongNameWellFormed(labels);
    var enc := NameEncoding(qname).value;
    var head := Header(id, flags, 1, 1, 0, 0);
    var rr := ResourceRecord([0], TypeCode(A), ttl, octets);
    var suffix := U16Bytes(TypeCode(A)) + U16Bytes(ClassIN) + rr;
    var m := head + Question(enc, A) + rr;
    assert m == head + enc + suffix;
    StallRejectsOverlong(labels, head, suffix);
    HeaderFields(id, flags, 1, 1, 0, 0, Question(enc, A) + rr);
    assert SkipQuestions(m, HeaderSize, ReadU16(m, 4), StallWhenFull).None?;
    OneAnswer(id, flags, qname, A, [], ttl, A, octets, ntop, results, SkipWhenFull);
    OneAddressRecord(id, flags, qname, A, [], ttl, octets, Unspec, records, SkipWhenFull);
  }

  lemma Regroup(a: seq<Byte>, b: seq<Byte>, c: seq<Byte>)
    ensures a + b + c == a + (b + c) && a + b + c + [] == a + b + c
  {
  }

}
