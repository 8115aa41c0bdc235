/**
 * Domain names on the wire (RFC 1035, section 3.1 and section 4.1.4):
 * `encodeName` and `decodeName` of src/base/net/dns/DnsWireFormat.cpp.
 *
 * A name is written as a run of labels, each a length octet followed by that
 * many octets, closed by a zero octet. An octet whose two top bits are set
 * starts a two-octet compression pointer whose low 14 bits give the offset at
 * which the name continues. The decoder collects the text in a 256-octet
 * buffer, so at most 255 characters, and follows at most 10 pointers.
 */
module DnsName {
  import opened Common
  import opened Strings

  /** Longest label `encodeName` accepts. */
  const MaxLabel: nat := 63
  /** Characters the decoder's 256-octet buffer holds before its terminating NUL. */
  const MaxText: nat := 255
  /** Compression pointers the decoder follows (`maxJumps`). */
  const MaxJumps: nat := 10
  /** The octet `'.'` placed between labels of a decoded name. */
  const DotByte: Byte := 0x2E

  /** `static_cast<uint8_t>` of a character of a byte string. */
  function ByteOf(c: char): Byte
  {
    (c as int) % 0x100
  }

  /** The octets of a text, one per character. */
  function TextBytes(s: string): (b: seq<Byte>)
    ensures |b| == |s|
  {
    seq(|s|, i requires 0 <= i < |s| => ByteOf(s[i]))
  }

  /** `String(buf)`: the characters of a C buffer up to its first NUL octet. */
  function CText(bytes: seq<Byte>): (s: string)
    ensures |s| <= |bytes|
  {
    if bytes == [] || bytes[0] == 0 then [] else [bytes[0] as char] + CText(bytes[1..])
  }

  // ------------------------------------------------------------------
  // Encoding
  // ------------------------------------------------------------------

  /** A label whose length fits the length octet and whose characters are octets. */
  predicate ShortLabels(labels: seq<string>)
  {
    forall i :: 0 <= i < |labels| ==> |labels[i]| <= MaxLabel
  }

  /** Each label as its length octet followed by its octets. */
  function EncodeLabels(labels: seq<string>): (b: seq<Byte>)
    requires ShortLabels(labels)
  {
    if labels == [] then []
    else [|labels[0]|] + TextBytes(labels[0]) + EncodeLabels(labels[1..])
  }

  /** The index of the first label longer than 63 characters, or the number of labels. */
  function FirstLongLabel(labels: seq<string>): (k: nat)
    ensures k <= |labels| && ShortLabels(labels[..k])
    ensures k < |labels| ==> |labels[k]| > MaxLabel
  {
    if labels == [] then 0
    else if |labels[0]| > MaxLabel then 0
    else
      var k := FirstLongLabel(labels[1..]);
      assert labels[..k + 1] == [labels[0]] + labels[1..][..k];
      k + 1
  }

  /** The first long label is the one after a run of short labels. */
  lemma {:induction false} FirstLongLabelAt(labels: seq<string>, k: nat)
    requires k <= |labels| && ShortLabels(labels[..k])
    requires k < |labels| ==> |labels[k]| > MaxLabel
    ensures FirstLongLabel(labels) == k
    decreases k
  {
    if k > 0 {
      assert labels[1..][..k - 1] == labels[..k][1..];
      assert labels[0] == labels[..k][0];
      FirstLongLabelAt(labels[1..], k - 1);
    }
  }

  /** What `encodeName` appends for `name`, or None when it refuses the name. */
  function NameEncoding(name: string): Option<seq<Byte>>
  {
    if name == [] then Some([0])
    else
      var labels := Split(name, '.');
      if FirstLongLabel(labels) < |labels| then None
      else Some(EncodeLabels(labels) + [0])
  }

  lemma {:induction false} EncodeLabelsAppend(labels: seq<string>, k: nat)
    requires k < |labels| && ShortLabels(labels[..k + 1])
    ensures EncodeLabels(labels[..k + 1]) == EncodeLabels(labels[..k]) + [|labels[k]|] + TextBytes(labels[k])
    decreases k
  {
    if k > 0 {
      assert labels[1..][..k] == labels[..k + 1][1..];
      EncodeLabelsAppend(labels[1..], k - 1);
      assert labels[1..][..k - 1] == labels[..k][1..];
    }
  }

  /** The body of `encodeName`'s loop: the label's length octet, then its octets. */
  method AppendLabel(out: seq<Byte>, part: string) returns (res: seq<Byte>)
    requires |part| <= MaxLabel
    ensures res == out + [|part|] + TextBytes(part)
  {
    res := out + [|part|];
    for i := 0 to |part|
      invariant res == out + [|part|] + TextBytes(part[..i])
    {
      assert TextBytes(part[..i + 1]) == TextBytes(part[..i]) + [ByteOf(part[i])];
      res := res + [ByteOf(part[i])];
    }
    assert part[..|part|] == part;
  }

  /**
   * `encodeName`: appends the encoding of `name` to `out`. The empty name
   * becomes the single octet 0; otherwise every dot-separated label is written
   * as its length octet and its octets and a zero octet closes the name. A
   * label longer than 63 characters makes it stop and report failure, leaving
   * the labels before it appended.
   */
  method EncodeName(name: string, out: seq<Byte>) returns (ok: bool, res: seq<Byte>)
    ensures ok <==> NameEncoding(name).Some?
    ensures ok ==> res == out + NameEncoding(name).value
    ensures !ok ==> var labels := Split(name, '.');
                    res == out + EncodeLabels(labels[..FirstLongLabel(labels)])
  {
    if name == [] {
      return true, out + [0];
    }
    var labels := Split(name, '.');
    res := out;
    for k := 0 to |labels|
      invariant ShortLabels(labels[..k])
      invariant res == out + EncodeLabels(labels[..k])
    {
      var part := labels[k];
      if |part| > MaxLabel {
        FirstLongLabelAt(labels, k);
        ok := false;
        return;
      }
      res := AppendLabel(res, part);
      assert ShortLabels(labels[..k + 1]);
      EncodeLabelsAppend(labels, k);
    }
    assert labels[..|labels|] == labels;
    FirstLongLabelAt(labels, |labels|);
    res := res + [0];
    ok := true;
  }

  // ------------------------------------------------------------------
  // Decoding
  // ------------------------------------------------------------------

  /**
   * What the copy loop does once the buffer is full. The code as written
   * stops advancing the read position with the buffer (`StallWhenFull`); the
   * corrected decoder skips the rest of the label (`SkipWhenFull`).
   */
  datatype LabelRule = StallWhenFull | SkipWhenFull

  /** The outcome of `decodeName`: failure, or the name and the new value of `offset`. */
  datatype DecodeResult = Failed | Decoded(name: string, offset: nat)

  function Min(a: int, b: int): int { if a <= b then a else b }

  /** The buffer before a label is copied: a dot after earlier text while there is room. */
  function WithDot(text: seq<Byte>): seq<Byte>
  {
    if 0 < |text| < MaxText then text + [DotByte] else text
  }

  /** Where the read position and the buffer stand while a name is decoded. */
  datatype Cursor = Cursor(pos: nat, text: seq<Byte>)

  /**
   * The read position and the buffer after the ordinary label whose length
   * octet is at `pos`: a dot after earlier text, then as much of the label as
   * the buffer has room for.
   */
  function AfterLabel(data: seq<Byte>, pos: nat, text: seq<Byte>, rule: LabelRule): (c: Cursor)
    requires |text| <= MaxText && pos < |data| && pos + 1 + data[pos] <= |data|
    ensures |c.text| <= MaxText && c.pos > pos
  {
    var start := pos + 1;
    var withDot := WithDot(text);
    var n := Min(data[pos], MaxText - |withDot|);
    Cursor(if rule == SkipWhenFull then start + data[pos] else start + n, withDot + data[start..start + n])
  }

  /**
   * One run of `decodeName`'s loop from read position `pos`, buffer `text`,
   * flag `jumped`, remaining pointer budget `jumps`, and the current value
   * `offset` of the caller's offset.
   */
  function DecodeFrom(data: seq<Byte>, pos: nat, text: seq<Byte>, jumped: bool, jumps: nat,
                      offset: nat, rule: LabelRule): (r: DecodeResult)
    requires |text| <= MaxText
    ensures r.Decoded? ==> |r.name| <= MaxText
    ensures r.Decoded? && jumped ==> r.offset == offset
    decreases jumps, |data| - pos
  {
    if pos < |data| && jumps > 0 then
      var labelLen := data[pos];
      if labelLen == 0 then
        Decoded(CText(text), if jumped then offset else pos + 1)
      else if labelLen >= 0xC0 then
        if pos + 1 >= |data| then Failed
        else
          DecodeFrom(data, PointerTarget(labelLen, data[pos + 1]), text, true, jumps - 1,
                     if jumped then offset else pos + 2, rule)
      else
        if pos + 1 + labelLen > |data| then Failed
        else
          var after := AfterLabel(data, pos, text, rule);
          DecodeFrom(data, after.pos, after.text, jumped, jumps, offset, rule)
    else
      Decoded(CText(text), if jumped then offset else pos + 1)
  }

  /** `decodeName(data, len, offset, name)` with `len == |data|`. */
  function DecodeNameAt(data: seq<Byte>, offset: nat, rule: LabelRule): DecodeResult
  {
    DecodeFrom(data, offset, [], false, MaxJumps, offset, rule)
  }

  /** Where a compression pointer with octets `hi`, `lo` leads: `((hi & 0x3F) << 8) | lo`. */
  function PointerTarget(hi: Byte, lo: Byte): nat
    requires hi >= 0xC0
  {
    (hi - 0xC0) * 0x100 + lo
  }

  /** Unfolds `DecodeFrom` over one ordinary label. */
  lemma {:induction false} LabelStep(data: seq<Byte>, pos: nat, text: seq<Byte>, jumped: bool, jumps: nat, offset: nat,
                  rule: LabelRule)
    requires |text| <= MaxText && pos < |data| && jumps > 0
    requires 0 < data[pos] < 0xC0 && pos + 1 + data[pos] <= |data|
    ensures DecodeFrom(data, pos, text, jumped, jumps, offset, rule)
         == DecodeFrom(data, AfterLabel(data, pos, text, rule).pos, AfterLabel(data, pos, text, rule).text,
                       jumped, jumps, offset, rule)
  {
  }

  /** The copy loop of `decodeName`: octets of the label at `start` while the buffer has room. */
  method CopyLabel(data: seq<Byte>, start: nat, labelLen: nat, text: seq<Byte>)
    returns (copied: seq<Byte>, pos: nat)
    requires start + labelLen <= |data| && |text| <= MaxText
    ensures pos == start + Min(labelLen, MaxText - |text|)
    ensures copied == text + data[start..pos]
  {
    copied, pos := text, start;
    var i := 0;
    while i < labelLen && |copied| < MaxText
      invariant 0 <= i <= labelLen && pos == start + i
      invariant |copied| <= MaxText && copied == text + data[start..pos]
    {
      assert data[start..pos + 1] == data[start..pos] + [data[pos]];
      copied := copied + [data[pos]];
      pos := pos + 1;
      i := i + 1;
    }
  }

  /**
   * The label branch of `decodeName`'s loop: step over the length octet, add
   * a dot after earlier text while there is room, and copy the label.
   */
  method ReadLabel(data: seq<Byte>, at: nat, text: seq<Byte>, rule: LabelRule) returns (pos: nat, buf: seq<Byte>)
    requires |text| <= MaxText && at < |data| && at + 1 + data[at] <= |data|
    ensures Cursor(pos, buf) == AfterLabel(data, at, text, rule)
  {
    var labelLen := data[at];
    pos := at + 1;
    var start := pos;
    buf := text;
    if 0 < |buf| < MaxText {
      buf := buf + [DotByte];
    }
    buf, pos := CopyLabel(data, start, labelLen, buf);
    if rule == SkipWhenFull {
      pos := start + labelLen;
    }
  }

  /**
   * `decodeName`. `ok` is its return value; on success `newOffset` is the
   * value it leaves in `offset` and `name` the decoded text. On failure the
   * callers never read `offset` again, so `newOffset` is left unconstrained.
   */
  method DecodeName(data: seq<Byte>, offset: nat, rule: LabelRule)
    returns (ok: bool, newOffset: nat, name: string)
    ensures ok <==> DecodeNameAt(data, offset, rule).Decoded?
    ensures ok ==> newOffset == DecodeNameAt(data, offset, rule).offset
                   && name == DecodeNameAt(data, offset, rule).name
    ensures ok ==> |name| <= MaxText
  {
    var text: seq<Byte> := [];
    var pos: nat := offset;
    var jumped := false;
    var jumps: nat := MaxJumps;
    newOffset := offset;
    while pos < |data| && jumps > 0
      invariant |text| <= MaxText
      invariant DecodeFrom(data, pos, text, jumped, jumps, newOffset, rule) == DecodeNameAt(data, offset, rule)
      decreases jumps, |data| - pos
    {
      var labelLen := data[pos];
      if labelLen == 0 {
        if !jumped {
          newOffset := pos + 1;
        }
        break;
      }
      if labelLen >= 0xC0 {
        if pos + 1 >= |data| {
          return false, newOffset, [];
        }
        if !jumped {
          newOffset := pos + 2;
        }
        pos := PointerTarget(labelLen, data[pos + 1]);
        jumped := true;
        jumps := jumps - 1;
      } else {
        if pos + 1 + labelLen > |data| {
          return false, newOffset, [];
        }
        LabelStep(data, pos, text, jumped, jumps, newOffset, rule);
        pos, text := ReadLabel(data, pos, text, rule);
      }
    }
    name := CText(text);
    if !jumped {
      newOffset := pos + 1;
    }
    ok := true;
  }

  // ------------------------------------------------------------------
  // Properties of the decoder
  // ------------------------------------------------------------------

  /** Characters an octet buffer carries unchanged: non-NUL and below 256. */
  predicate OctetText(s: string)
  {
    forall i :: 0 <= i < |s| ==> 0 < s[i] as int < 0x100
  }

  /** A label `encodeName` accepts and the decoder reads as a label: 1 to 63 characters. */
  predicate WellFormedLabel(l: string)
  {
    1 <= |l| <= MaxLabel
  }

  predicate WellFormedLabels(labels: seq<string>)
  {
    forall i :: 0 <= i < |labels| ==> WellFormedLabel(labels[i])
  }

  /**
   * A host name the codec carries unchanged: the root (the empty name), or
   * dot-separated labels of 1 to 63 characters, none of them NUL, each an octet.
   */
  predicate WellFormedName(name: string)
  {
    name == [] || (OctetText(name) && WellFormedLabels(Split(name, '.')))
  }

  /** The text an unbounded buffer holds once `labels` are read after `done`. */
  function Extend(done: string, labels: seq<string>): string
    decreases |labels|
  {
    if labels == [] then done
    else Extend(if done == [] then labels[0] else done + "." + labels[0], labels[1..])
  }

  lemma {:induction false} ExtendLonger(done: string, labels: seq<string>)
    ensures |Extend(done, labels)| >= |done|
    decreases |labels|
  {
    if labels != [] {
      ExtendLonger(if done == [] then labels[0] else done + "." + labels[0], labels[1..]);
    }
  }

  /** Reading labels after some text adds a dot and the labels joined by dots. */
  lemma {:induction false} ExtendJoin(done: string, labels: seq<string>)
    requires labels != [] && forall i :: 0 <= i < |labels| ==> labels[i] != []
    ensures Extend(done, labels) == if done == [] then Join(labels, '.') else done + "." + Join(labels, '.')
    decreases |labels|
  {
    var l := labels[0];
    var next := if done == [] then l else done + "." + l;
    if |labels| > 1 {
      ExtendJoin(next, labels[1..]);
      assert Join(labels, '.') == l + "." + Join(labels[1..], '.');
    }
  }

  lemma {:induction false} TextBytesConcat(a: string, b: string)
    ensures TextBytes(a + b) == TextBytes(a) + TextBytes(b)
  {
  }

  lemma {:induction false} CTextOfOctetText(s: string)
    requires OctetText(s)
    ensures CText(TextBytes(s)) == s
    decreases |s|
  {
    if s != [] {
      CTextOfOctetText(s[1..]);
      assert TextBytes(s)[1..] == TextBytes(s[1..]);
      assert TextBytes(s)[0] as char == s[0];
    }
  }

  /** The buffer after one more label: a dot when it holds text and has room, then what fits. */
  lemma {:induction false} AppendLabelText(done: string, l: string)
    requires 1 <= |l| <= MaxLabel
    ensures var text := TextBytes(Truncate(done, MaxText));
            var withDot := WithDot(text);
            var n := Min(|l|, MaxText - |withDot|);
            withDot + TextBytes(l[..n])
              == TextBytes(Truncate(if done == [] then l else done + "." + l, MaxText))
  {
    var text := TextBytes(Truncate(done, MaxText));
    var withDot := WithDot(text);
    var n := Min(|l|, MaxText - |withDot|);
    if done == [] {
      assert l[..n] == l;
    } else if |done| < MaxText {
      assert Truncate(done + "." + l, MaxText) == done + "." + l[..n];
      TextBytesConcat(done + ".", l[..n]);
      TextBytesConcat(done, ".");
    } else {
      assert Truncate(done + "." + l, MaxText) == done[..MaxText];
    }
  }

  /** `bytes` occur in `data` starting at `pos`. */
  predicate OctetsAt(data: seq<Byte>, pos: nat, bytes: seq<Byte>)
  {
    pos + |bytes| <= |data| && forall i {:trigger bytes[i]} :: 0 <= i < |bytes| ==> data[pos + i] == bytes[i]
  }

  lemma {:induction false} OctetsPrefix(data: seq<Byte>, pos: nat, bytes: seq<Byte>, n: nat)
    requires OctetsAt(data, pos, bytes) && n <= |bytes|
    ensures data[pos..pos + n] == bytes[..n]
  {
  }

  /** The octets of encoded labels at `pos`: the first label's length, its octets, the rest. */
  lemma {:induction false} EncodedLabelsAt(data: seq<Byte>, pos: nat, labels: seq<string>)
    requires labels != [] && ShortLabels(labels)
    requires OctetsAt(data, pos, EncodeLabels(labels))
    ensures var l := labels[0];
            |EncodeLabels(labels)| == 1 + |l| + |EncodeLabels(labels[1..])|
            && data[pos] == |l| && OctetsAt(data, pos + 1, TextBytes(l))
            && OctetsAt(data, pos + 1 + |l|, EncodeLabels(labels[1..]))
  {
    var l := labels[0];
    var enc := EncodeLabels(labels);
    var rest := EncodeLabels(labels[1..]);
    assert enc == [|l|] + TextBytes(l) + rest;
    assert data[pos] == enc[0];
    forall i | 0 <= i < |l|
      ensures data[pos + 1 + i] == TextBytes(l)[i]
    {
      assert data[pos + (1 + i)] == enc[1 + i];
    }
    forall i | 0 <= i < |rest|
      ensures data[pos + 1 + |l| + i] == rest[i]
    {
      assert data[pos + (1 + |l| + i)] == enc[1 + |l| + i];
    }
  }

  /**
   * `labels` lie in `data` from `pos` on as `encodeName` writes them: each a
   * length octet of 1 to 63 followed by the label's octets.
   */
  predicate LabelsAt(data: seq<Byte>, pos: nat, labels: seq<string>)
    decreases |labels|
  {
    labels == [] ||
    (WellFormedLabel(labels[0]) && pos < |data| && data[pos] == |labels[0]|
     && OctetsAt(data, pos + 1, TextBytes(labels[0]))
     && LabelsAt(data, pos + 1 + |labels[0]|, labels[1..]))
  }

  /** The number of octets `labels` take in a message. */
  function LabelsSize(labels: seq<string>): nat
    decreases |labels|
  {
    if labels == [] then 0 else 1 + |labels[0]| + LabelsSize(labels[1..])
  }

  /** Encoded well-formed labels are found label by label, and take `LabelsSize` octets. */
  lemma {:induction false} EncodedLabelsAreAt(data: seq<Byte>, pos: nat, labels: seq<string>)
    requires WellFormedLabels(labels) && ShortLabels(labels)
    requires OctetsAt(data, pos, EncodeLabels(labels))
    ensures LabelsAt(data, pos, labels) && |EncodeLabels(labels)| == LabelsSize(labels)
    decreases |labels|
  {
    if labels != [] {
      var rest := labels[1..];
      assert WellFormedLabel(labels[0]) && WellFormedLabels(rest) && ShortLabels(rest);
      EncodedLabelsAt(data, pos, labels);
      EncodedLabelsAreAt(data, pos + 1 + |labels[0]|, rest);
    }
  }

  /** The buffer after one more label is copied into `text`, cut to the buffer's size. */
  function AppendText(text: seq<Byte>, l: string): (t: seq<Byte>)
    requires |text| <= MaxText
    ensures |t| <= MaxText
  {
    var withDot := WithDot(text);
    withDot + TextBytes(l)[..Min(|l|, MaxText - |withDot|)]
  }

  /** The buffer after `labels` are copied into `text` one after the other. */
  function FoldText(text: seq<Byte>, labels: seq<string>): (t: seq<Byte>)
    requires |text| <= MaxText
    ensures |t| <= MaxText
    decreases |labels|
  {
    if labels == [] then text else FoldText(AppendText(text, labels[0]), labels[1..])
  }

  /** Every one of `labels`, with its dot, fits the buffer whole after `text`. */
  predicate Fits(text: seq<Byte>, labels: seq<string>)
    requires |text| <= MaxText
    decreases |labels|
  {
    labels == [] ||
    (|WithDot(text)| + |labels[0]| <= MaxText && Fits(AppendText(text, labels[0]), labels[1..]))
  }

  /** The decoder's step over one label copies the label into the buffer (all of it when it fits). */
  lemma {:induction false} ReadOneLabel(data: seq<Byte>, pos: nat, l: string, text: seq<Byte>, rule: LabelRule)
    requires 1 <= |l| <= MaxLabel && |text| <= MaxText
    requires pos < |data| && data[pos] == |l| && OctetsAt(data, pos + 1, TextBytes(l))
    requires rule == SkipWhenFull || |WithDot(text)| + |l| <= MaxText
    ensures AfterLabel(data, pos, text, rule) == Cursor(pos + 1 + |l|, AppendText(text, l))
  {
    OctetsPrefix(data, pos + 1, TextBytes(l), Min(|l|, MaxText - |WithDot(text)|));
  }

  /**
   * Reading encoded labels from a read position that has not jumped: the
   * decoder reaches the end of the labels holding them copied into its
   * buffer. The code as written only gets there while every label fits.
   */
  lemma {:induction false} ReadLabels(data: seq<Byte>, pos: nat, labels: seq<string>, text: seq<Byte>, rule: LabelRule)
    requires LabelsAt(data, pos, labels) && |text| <= MaxText
    requires rule == SkipWhenFull || Fits(text, labels)
    ensures SkipLabels(data, Cursor(pos, text), |labels|, rule)
         == Some(Cursor(pos + LabelsSize(labels), FoldText(text, labels)))
    decreases |labels|
  {
    if labels != [] {
      var l, rest := labels[0], labels[1..];
      SkipOneLabel(data, Cursor(pos, text), |labels|, rule);
      ReadOneLabel(data, pos, l, text, rule);
      assert |rest| == |labels| - 1;
      ReadLabels(data, pos + 1 + |l|, rest, AppendText(text, l), rule);
    }
  }

  /**
   * The buffer after labels, in characters: the labels joined by dots after
   * `done`, cut to 255 characters; and the code as written's condition holds
   * whenever that text is not cut.
   */
  lemma {:induction false} FoldBuffer(done: string, labels: seq<string>)
    requires WellFormedLabels(labels)
    ensures FoldText(TextBytes(Truncate(done, MaxText)), labels) == TextBytes(Truncate(Extend(done, labels), MaxText))
    ensures |Extend(done, labels)| <= MaxText ==> Fits(TextBytes(Truncate(done, MaxText)), labels)
    decreases |labels|
  {
    if labels != [] {
      var l, rest := labels[0], labels[1..];
      assert WellFormedLabel(l) && WellFormedLabels(rest);
      var next := if done == [] then l else done + "." + l;
      var text := TextBytes(Truncate(done, MaxText));
      AppendLabelText(done, l);
      assert TextBytes(l)[..Min(|l|, MaxText - |WithDot(text)|)] == TextBytes(l[..Min(|l|, MaxText - |WithDot(text)|)]);
      assert AppendText(text, l) == TextBytes(Truncate(next, MaxText));
      FoldBuffer(next, rest);
      ExtendLonger(next, rest);
      assert Extend(done, labels) == Extend(next, rest);
    }
  }

  /** The cursor after `k` ordinary labels from `c`, or None when one of them is not an ordinary label. */
  function SkipLabels(data: seq<Byte>, c: Cursor, k: nat, rule: LabelRule): (r: Option<Cursor>)
    requires |c.text| <= MaxText
    ensures r.Some? ==> |r.value.text| <= MaxText
    decreases k
  {
    if k == 0 then Some(c)
    else if c.pos < |data| && 0 < data[c.pos] < 0xC0 && c.pos + 1 + data[c.pos] <= |data| then
      SkipLabels(data, AfterLabel(data, c.pos, c.text, rule), k - 1, rule)
    else None
  }

  lemma {:induction false} SkipOneLabel(data: seq<Byte>, c: Cursor, k: nat, rule: LabelRule)
    requires |c.text| <= MaxText && k > 0
    requires c.pos < |data| && 0 < data[c.pos] < 0xC0 && c.pos + 1 + data[c.pos] <= |data|
    ensures SkipLabels(data, c, k, rule) == SkipLabels(data, AfterLabel(data, c.pos, c.text, rule), k - 1, rule)
  {
  }

  /** Ordinary labels lead the decoder on to the cursor `e` after them. */
  lemma {:induction false} RunLabels(data: seq<Byte>, c: Cursor, k: nat, e: Cursor, jumps: nat, offset: nat, rule: LabelRule)
    requires |c.text| <= MaxText && jumps > 0 && SkipLabels(data, c, k, rule) == Some(e)
    ensures DecodeFrom(data, c.pos, c.text, false, jumps, offset, rule)
         == DecodeFrom(data, e.pos, e.text, false, jumps, offset, rule)
    decreases k
  {
    if k > 0 {
      LabelStep(data, c.pos, c.text, false, jumps, offset, rule);
      RunLabels(data, AfterLabel(data, c.pos, c.text, rule), k - 1, e, jumps, offset, rule);
    }
  }


  lemma {:induction false} OctetTextConcat(done: string, l: string)
    requires OctetText(done) && OctetText(l)
    ensures OctetText(if done == [] then l else done + "." + l)
  {
    if done != [] {
      var next := done + "." + l;
      forall i | 0 <= i < |next|
        ensures 0 < next[i] as int < 0x100
      {
        if i < |done| {
          assert next[i] == done[i];
        } else if i > |done| {
          assert next[i] == l[i - |done| - 1];
        }
      }
    }
  }

  /** A well-formed name has an encoding. */
  lemma {:induction false} WellFormedEncodes(name: string)
    requires WellFormedName(name)
    ensures NameEncoding(name).Some?
  {
    DecodeEncodedName([], name, [], SkipWhenFull);
  }

  /**
   * Round trip of `encodeName` and `decodeName`: a well-formed name, encoded
   * and placed anywhere in a message, decodes to itself cut to 255
   * characters, and the offset moves just past its encoding. The code as
   * written does so only for names of at most 255 characters.
   */
  lemma {:induction false} DecodeEncodedName(prefix: seq<Byte>, name: string, suffix: seq<Byte>, rule: LabelRule)
    requires WellFormedName(name)
    requires rule == SkipWhenFull || |name| <= MaxText
    ensures NameEncoding(name).Some?
    ensures var enc := NameEncoding(name).value;
            DecodeNameAt(prefix + enc + suffix, |prefix|, rule)
              == Decoded(Truncate(name, MaxText), |prefix| + |enc|)
  {
    if name != [] {
      var labels := Split(name, '.');
      NameLabels(name);
      var enc := EncodeLabels(labels);
      var data := prefix + (enc + [0]) + suffix;
      assert OctetsAt(data, |prefix|, enc);
      EncodedLabelsAreAt(data, |prefix|, labels);
      assert data[|prefix| + |enc|] == 0;
      ReadEncodedLabels(data, |prefix|, labels, name, rule);
    }
  }

  /** Labels at `pos` followed by a zero octet decode to the labels joined by dots, cut to 255 characters. */
  lemma {:induction false} ReadEncodedLabels(data: seq<Byte>, pos: nat, labels: seq<string>, name: string, rule: LabelRule)
    requires WellFormedLabels(labels) && LabelsAt(data, pos, labels)
    requires pos + LabelsSize(labels) < |data| && data[pos + LabelsSize(labels)] == 0
    requires Extend([], labels) == name && OctetText(name)
    requires rule == SkipWhenFull || |name| <= MaxText
    ensures DecodeFrom(data, pos, [], false, MaxJumps, pos, rule)
         == Decoded(Truncate(name, MaxText), pos + LabelsSize(labels) + 1)
  {
    var e := Cursor(pos + LabelsSize(labels), TextBytes(Truncate(name, MaxText)));
    ReadLabelsFromStart(data, pos, labels, name, rule);
    RunLabels(data, Cursor(pos, []), |labels|, e, MaxJumps, pos, rule);
    TerminatorStep(data, e.pos, name, pos, rule);
  }

  /** Reading labels into the empty buffer leaves their dotted text in it, cut to 255 characters. */
  lemma {:induction false} ReadLabelsFromStart(data: seq<Byte>, pos: nat, labels: seq<string>, name: string, rule: LabelRule)
    requires WellFormedLabels(labels) && LabelsAt(data, pos, labels)
    requires Extend([], labels) == name
    requires rule == SkipWhenFull || |name| <= MaxText
    ensures SkipLabels(data, Cursor(pos, []), |labels|, rule)
         == Some(Cursor(pos + LabelsSize(labels), TextBytes(Truncate(name, MaxText))))
  {
    var empty := TextBytes(Truncate([], MaxText));
    FoldBuffer([], labels);
    ReadLabels(data, pos, labels, empty, rule);
    assert empty == [];
  }

  /** A well-formed name is its labels read one after the other, and is encoded label by label. */
  lemma {:induction false} NameLabels(name: string)
    requires name != [] && WellFormedName(name)
    ensures var labels := Split(name, '.');
            NameEncoding(name) == Some(EncodeLabels(labels) + [0])
            && Extend([], labels) == name && OctetText(name)
  {
    var labels := Split(name, '.');
    assert FirstLongLabel(labels) == |labels|;
    assert forall i :: 0 <= i < |labels| ==> labels[i] != [] by {
      forall i | 0 <= i < |labels| ensures labels[i] != [] {
        assert WellFormedLabel(labels[i]);
      }
    }
    ExtendJoin([], labels);
    JoinSplit(name, '.');
  }

  /** At a zero octet the decoder stops with the text it holds, the offset just past the octet. */
  lemma {:induction false} TerminatorStep(data: seq<Byte>, pos: nat, name: string, offset: nat, rule: LabelRule)
    requires pos < |data| && data[pos] == 0 && OctetText(name)
    ensures var kept := Truncate(name, MaxText);
            DecodeFrom(data, pos, TextBytes(kept), false, MaxJumps, offset, rule) == Decoded(kept, pos + 1)
  {
    var kept := Truncate(name, MaxText);
    assert forall i :: 0 <= i < |kept| ==> kept[i] == name[i];
    CTextOfOctetText(kept);
  }

  /**
   * Where the in-line part of a name at `pos` ends: just past its zero
   * octet, or just past the first compression pointer; None when a label or a
   * pointer runs past the end of the message.
   */
  function InlineEnd(data: seq<Byte>, pos: nat): Option<nat>
    decreases |data| - pos
  {
    if pos >= |data| || data[pos] == 0 then Some(pos + 1)
    else if data[pos] >= 0xC0 then (if pos + 1 >= |data| then None else Some(pos + 2))
    else if pos + 1 + data[pos] > |data| then None
    else InlineEnd(data, pos + 1 + data[pos])
  }

  /**
   * The offset the corrected decoder reports is where the name's in-line
   * part ends, whatever the pointers lead to; and a name whose in-line part
   * runs off the message is rejected.
   */
  lemma {:induction false} DecodeEndsInline(data: seq<Byte>, pos: nat, text: seq<Byte>, jumps: nat, offset: nat)
    requires |text| <= MaxText && jumps > 0
    ensures var r := DecodeFrom(data, pos, text, false, jumps, offset, SkipWhenFull);
            (r.Decoded? ==> InlineEnd(data, pos) == Some(r.offset))
            && (InlineEnd(data, pos).None? ==> r.Failed?)
    decreases |data| - pos
  {
    if pos < |data| && 0 < data[pos] < 0xC0 && pos + 1 + data[pos] <= |data| {
      LabelStep(data, pos, text, false, jumps, offset, SkipWhenFull);
      var after := AfterLabel(data, pos, text, SkipWhenFull);
      DecodeEndsInline(data, after.pos, after.text, jumps, offset);
    }
  }

  lemma {:induction false} SelfPointerFrom(jumps: nat, rule: LabelRule)
    ensures DecodeFrom([0xC0, 0x00], 0, [], true, jumps, 2, rule) == Decoded([], 2)
    decreases jumps
  {
    if jumps > 0 {
      SelfPointerFrom(jumps - 1, rule);
    }
  }

  /**
   * A compression pointer to itself does not hang the decoder: after ten
   * jumps it stops with the empty name, the offset just past the pointer.
   */
  lemma {:induction false} SelfPointerStops(rule: LabelRule)
    ensures DecodeNameAt([0xC0, 0x00], 0, rule) == Decoded([], 2)
  {
    SelfPointerFrom(MaxJumps - 1, rule);
  }

  /**
   * Five labels of 63 characters, a 319-character name, longer than the
   * buffer; the fifth label starts with a character that, read as a length
   * octet, is too long for what is left of the message.
   */
  predicate OverlongShape(labels: seq<string>)
  {
    |labels| == 5
    && (forall i :: 0 <= i < 5 ==> |labels[i]| == MaxLabel && OctetText(labels[i]) && '.' !in labels[i])
    && 64 <= labels[4][0] as int < 0xC0
  }

  lemma {:induction false} LongLabelsLength(done: string, labels: seq<string>)
    requires forall i :: 0 <= i < |labels| ==> |labels[i]| == MaxLabel
    ensures WellFormedLabels(labels) && ShortLabels(labels)
    ensures |EncodeLabels(labels)| == LabelsSize(labels) == 64 * |labels|
    ensures |labels| > 0 ==> |Extend(done, labels)| == if done == [] then 64 * |labels| - 1 else |done| + 64 * |labels|
    decreases |labels|
  {
    if labels != [] {
      LongLabelsLength(if done == [] then labels[0] else done + "." + labels[0], labels[1..]);
    }
  }

  lemma {:induction false} JoinOctets(labels: seq<string>)
    requires |labels| >= 1 && forall i :: 0 <= i < |labels| ==> OctetText(labels[i])
    ensures OctetText(Join(labels, '.'))
    decreases |labels|
  {
    if |labels| > 1 {
      JoinOctets(labels[1..]);
      OctetTextConcat(labels[0], Join(labels[1..], '.'));
    }
  }

  /** Such a name is well formed: `encodeName` accepts it, label by label. */
  lemma {:induction false} OverlongNameWellFormed(labels: seq<string>)
    requires OverlongShape(labels)
    ensures WellFormedName(Join(labels, '.')) && |Join(labels, '.')| == 319
    ensures NameEncoding(Join(labels, '.')) == Some(EncodeLabels(labels) + [0])
  {
    SplitJoin(labels, '.');
    JoinOctets(labels);
    LongLabelsLength([], labels);
    ExtendJoin([], labels);
    FirstLongLabelAt(labels, 5);
  }

  /** The encoded name, placed after `prefix`: four labels filling 256 octets, then the fifth label. */
  lemma {:induction false} OverlongLayout(labels: seq<string>, prefix: seq<Byte>, suffix: seq<Byte>)
    requires OverlongShape(labels)
    ensures var data := prefix + (EncodeLabels(labels) + [0]) + suffix;
            var p := |prefix|;
            |EncodeLabels(labels) + [0]| == 321 && |data| == p + 321 + |suffix|
            && data[p + 256] == MaxLabel && data[p + 257] == labels[4][0] as int
            && LabelsAt(data, p, labels[..4]) && LabelsSize(labels[..4]) == 256
  {
    var first := labels[..4];
    assert labels[..5] == labels;
    LongLabelsLength([], labels);
    EncodeLabelsAppend(labels, 4);
    LongLabelsLength([], first);
    var enc := EncodeLabels(labels) + [0];
    assert enc == EncodeLabels(first) + [MaxLabel] + TextBytes(labels[4]) + [0];
    var data := prefix + enc + suffix;
    assert data == prefix + EncodeLabels(first) + ([MaxLabel] + TextBytes(labels[4]) + [0] + suffix);
    assert OctetsAt(data, |prefix|, EncodeLabels(first));
    EncodedLabelsAreAt(data, |prefix|, first);
    assert data[|prefix| + 257] == enc[257] == TextBytes(labels[4])[0];
  }

  /** The first four labels fill the buffer: the decoder reaches the fifth with 255 characters. */
  lemma {:induction false} OverlongFourLabels(labels: seq<string>, prefix: seq<Byte>, suffix: seq<Byte>)
    requires OverlongShape(labels)
    ensures var data := prefix + (EncodeLabels(labels) + [0]) + suffix;
            var p := |prefix|;
            var text := FoldText([], labels[..4]);
            |text| == MaxText
            && DecodeNameAt(data, p, StallWhenFull) == DecodeFrom(data, p + 256, text, false, MaxJumps, p, StallWhenFull)
  {
    LongLabelsLength([], labels);
    var data := prefix + (EncodeLabels(labels) + [0]) + suffix;
    var p := |prefix|;
    var first := labels[..4];
    OverlongLayout(labels, prefix, suffix);
    LongLabelsLength([], first);
    FoldBuffer([], first);
    assert TextBytes(Truncate([], MaxText)) == [];
    ReadLabels(data, p, first, [], StallWhenFull);
    RunLabels(data, Cursor(p, []), 4, Cursor(p + 256, FoldText([], first)), MaxJumps, p, StallWhenFull);
  }

  /**
   * The code as written misreads a name longer than 255 characters: once the
   * buffer is full the read position stops with it, so the next octet of the
   * fifth label is taken for a label length. When fewer octets follow the
   * name than that length asks for beyond it, the name is rejected.
   */
  lemma {:induction false} StallRejectsOverlong(labels: seq<string>, prefix: seq<Byte>, suffix: seq<Byte>)
    requires OverlongShape(labels) && |suffix| + 64 <= labels[4][0] as int
    ensures NameEncoding(Join(labels, '.')) == Some(EncodeLabels(labels) + [0])
    ensures DecodeNameAt(prefix + (EncodeLabels(labels) + [0]) + suffix, |prefix|, StallWhenFull) == Failed
  {
    OverlongNameWellFormed(labels);
    var data := prefix + (EncodeLabels(labels) + [0]) + suffix;
    var p := |prefix|;
    var text := FoldText([], labels[..4]);
    OverlongLayout(labels, prefix, suffix);
    OverlongFourLabels(labels, prefix, suffix);
    assert WithDot(text) + data[p + 257..p + 257] == text;
    LabelStep(data, p + 256, text, false, MaxJumps, p, StallWhenFull);
    assert AfterLabel(data, p + 256, text, StallWhenFull) == Cursor(p + 257, text);
  }

  /** The corrected decoder reads such a name as its first 255 characters. */
  lemma {:induction false} SkipTruncatesOverlong(labels: seq<string>)
    requires OverlongShape(labels)
    ensures DecodeNameAt(EncodeLabels(labels) + [0], 0, SkipWhenFull)
         == Decoded(Truncate(Join(labels, '.'), MaxText), 321)
  {
    OverlongNameWellFormed(labels);
    LongLabelsLength([], labels);
    var enc := EncodeLabels(labels) + [0];
    DecodeEncodedName([], Join(labels, '.'), [], SkipWhenFull);
    assert [] + enc + [] == enc;
  }

  /** 63 characters 'a', the longest label. */
  function LongLabel(): (l: string)
    ensures |l| == MaxLabel && l[0] == 'a' && OctetText(l) && '.' !in l
  {
    seq(MaxLabel, _ => 'a')
  }

  /** Five longest labels of 'a'. */
  function OverlongLabels(): (ls: seq<string>)
    ensures OverlongShape(ls)
  {
    seq(5, _ => LongLabel())
  }

  /**
   * The concrete input: the name of five labels of 63 'a', which
   * `encodeName` accepts, is rejected by the code as written ('a' is 97, a
   * label running past the message's 321 octets) and read as its first 255
   * characters by the corrected decoder.
   */
  lemma {:induction false} OverlongNameRejectedAsWritten()
    ensures var data := EncodeLabels(OverlongLabels()) + [0];
            NameEncoding(Join(OverlongLabels(), '.')) == Some(data)
            && DecodeNameAt(data, 0, StallWhenFull) == Failed
            && DecodeNameAt(data, 0, SkipWhenFull) == Decoded(Truncate(Join(OverlongLabels(), '.'), MaxText), 321)
  {
    StallRejectsOverlong(OverlongLabels(), [], []);
    assert [] + (EncodeLabels(OverlongLabels()) + [0]) + [] == EncodeLabels(OverlongLabels()) + [0];
    SkipTruncatesOverlong(OverlongLabels());
  }
}
