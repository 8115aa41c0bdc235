/**
 * `scripts/embed_html.py`: turns the web UI page into a C++ header that
 * holds its gzip-compressed bytes as an array of `0xNN` literals, sixteen
 * to a row. gzip is a parameter; the file read is the parameter `input`
 * (`None` when the file is missing), and the file written is returned.
 */
module EmbedHtml {
  import opened Common

  /** `{:02x}` on one nibble: a lower-case hexadecimal digit. */
  function HexDigit(d: nat): (c: char)
    requires d < 16
    ensures '0' <= c <= '9' || 'a' <= c <= 'f'
  {
    if d < 10 then ('0' as int + d) as char else ('a' as int + d - 10) as char
  }

  /** The value of a lower-case hexadecimal digit. */
  function DigitValue(c: char): Option<nat>
  {
    if '0' <= c <= '9' then Some(c as int - '0' as int)
    else if 'a' <= c <= 'f' then Some(c as int - 'a' as int + 10)
    else None
  }

  /** Every digit reads back as its value. */
  lemma DigitRoundTrip(d: nat)
    requires d < 16
    ensures DigitValue(HexDigit(d)) == Some(d)
  {
  }

  /** `f'0x{b:02x}'`: "0x" and exactly two lower-case digits, high nibble first. */
  function HexLiteral(b: Byte): (s: string)
    ensures |s| == 4 && s[0] == '0' && s[1] == 'x'
    ensures DigitValue(s[2]) == Some(b / 16) && DigitValue(s[3]) == Some(b % 16)
  {
    "0x" + [HexDigit(b / 16), HexDigit(b % 16)]
  }

  /** `sep.join(parts)`. */
  function JoinWith(parts: seq<string>, sep: string): string
  {
    if parts == [] then ""
    else if |parts| == 1 then parts[0]
    else parts[0] + sep + JoinWith(parts[1..], sep)
  }

  /** The literals of a row, in order. */
  function Literals(chunk: seq<Byte>): (ls: seq<string>)
    ensures |ls| == |chunk|
  {
    if chunk == [] then [] else [HexLiteral(chunk[0])] + Literals(chunk[1..])
  }

  /** One line of the array: four spaces, then the row's literals separated by ", ". */
  function RowText(chunk: seq<Byte>): string
  {
    "    " + JoinWith(Literals(chunk), ", ")
  }

  /** `compressed[i:i + 16]` for `i` in `range(0, len(compressed), 16)`. */
  function Rows(data: seq<Byte>): seq<seq<Byte>>
    decreases |data|
  {
    if data == [] then []
    else if |data| <= 16 then [data]
    else [data[..16]] + Rows(data[16..])
  }

  function RowTexts(rows: seq<seq<Byte>>): (lines: seq<string>)
    ensures |lines| == |rows|
  {
    if rows == [] then [] else [RowText(rows[0])] + RowTexts(rows[1..])
  }

  function Flatten(rows: seq<seq<Byte>>): seq<Byte>
  {
    if rows == [] then [] else rows[0] + Flatten(rows[1..])
  }

  /** There are `ceil(n / 16)` rows, and the rows put back together are the data. */
  lemma {:induction false} RowsCover(data: seq<Byte>)
    ensures |Rows(data)| == (|data| + 15) / 16
    ensures Flatten(Rows(data)) == data
    decreases |data|
  {
    if |data| > 16 {
      RowsCover(data[16..]);
      assert data[..16] + data[16..] == data;
    } else if data != [] {
      assert Flatten(Rows(data)) == data + [];
    }
  }

  /** Row `k` holds bytes `16k` up to `16k + 16` (fewer in the last row). */
  lemma {:induction false} RowsAt(data: seq<Byte>, k: nat)
    requires 16 * k < |data|
    ensures k < |Rows(data)|
    ensures Rows(data)[k] == data[16 * k..if 16 * k + 16 <= |data| then 16 * k + 16 else |data|]
    decreases k
  {
    if k > 0 {
      var tail := data[16..];
      RowsAt(tail, k - 1);
      var hi := if 16 * (k - 1) + 16 <= |tail| then 16 * (k - 1) + 16 else |tail|;
      assert tail[16 * (k - 1)..hi] == data[16 * k..16 + hi];
    } else if |data| <= 16 {
      assert data[..|data|] == data;
    }
  }

  /** Every row but the last holds sixteen bytes. */
  lemma RowsFull(data: seq<Byte>, k: nat)
    requires 16 * k + 16 < |data|
    ensures k < |Rows(data)| - 1 && |Rows(data)[k]| == 16
  {
    RowsAt(data, k);
    RowsAt(data, k + 1);
  }

  /**
   * The loop of `main`: one line per row of sixteen bytes (fewer in the
   * last), in order.
   */
  method RenderLines(compressed: seq<Byte>) returns (lines: seq<string>)
    ensures lines == RowTexts(Rows(compressed))
  {
    lines := [];
    var i := 0;
    while i < |compressed|
      invariant i <= |compressed|
      invariant RowTexts(Rows(compressed)) == lines + RowTexts(Rows(compressed[i..]))
      decreases |compressed| - i
    {
      var end := if i + 16 <= |compressed| then i + 16 else |compressed|;
      var chunk := compressed[i..end];
      assert Rows(compressed[i..]) == [chunk] + Rows(compressed[end..]) by {
        var d := compressed[i..];
        if |d| <= 16 {
          assert d == chunk && compressed[end..] == [];
        } else {
          assert d[..16] == chunk && d[16..] == compressed[end..];
        }
      }
      lines := lines + [RowText(chunk)];
      i := end;
    }
  }

  /** The rows joined with ",\n": no comma after the last row. */
  function ArrayBody(compressed: seq<Byte>): string
  {
    JoinWith(RowTexts(Rows(compressed)), ",\n")
  }

  const Guard: string := "XMRIG_WEBUI_HTML_H"

  const Prefix: string :=
    "#ifndef " + Guard + "\n#define " + Guard + "\n\n#include <cstddef>\n\nnamespace xmrig {\n\n"
    + "static const unsigned char kWebUiHtml[] = {\n"

  const Suffix: string :=
    "\n};\n\nstatic const size_t kWebUiHtmlSize = sizeof(kWebUiHtml);\n\n} // namespace xmrig\n\n#endif // "
    + Guard + "\n"

  /** The header text: the fixed opening, the array body, the fixed closing. */
  function HeaderText(compressed: seq<Byte>): (h: string)
    ensures h == Prefix + ArrayBody(compressed) + Suffix
    ensures h[..|Prefix|] == Prefix && h[|h| - |Suffix|..] == Suffix
  {
    Prefix + ArrayBody(compressed) + Suffix
  }

  // ---------------------------------------------------------------------
  // Reading the literals back
  // ---------------------------------------------------------------------

  /**
   * The bytes a reader of the header finds: every "0x" followed by two
   * lower-case digits, in order; everything else is skipped.
   */
  function ReadLiterals(text: string): seq<Byte>
    decreases |text|
  {
    if text == [] then []
    else if LiteralAt(text) then [LiteralValue(text)] + ReadLiterals(text[4..])
    else ReadLiterals(text[1..])
  }

  /** The text starts with "0x" and two lower-case digits. */
  predicate LiteralAt(text: string)
  {
    |text| >= 4 && text[0] == '0' && text[1] == 'x' && DigitValue(text[2]).Some? && DigitValue(text[3]).Some?
  }

  function LiteralValue(text: string): Byte
    requires LiteralAt(text)
  {
    var hi, lo := DigitValue(text[2]).value, DigitValue(text[3]).value;
    assert hi < 16 && lo < 16;
    hi * 16 + lo
  }

  predicate NoZero(s: string)
  {
    forall i :: 0 <= i < |s| ==> s[i] != '0'
  }

  /** Text without a '0' holds no literal and cannot start one. */
  lemma {:induction false} SkipNoZero(s: string, rest: string)
    requires NoZero(s)
    ensures ReadLiterals(s + rest) == ReadLiterals(rest)
    decreases |s|
  {
    if s != [] {
      var t := s + rest;
      assert t[0] == s[0] != '0';
      assert ReadLiterals(t) == ReadLiterals(t[1..]);
      assert t[1..] == s[1..] + rest;
      assert NoZero(s[1..]) by {
        forall i | 0 <= i < |s[1..]| ensures s[1..][i] != '0' {
          assert s[1..][i] == s[i + 1];
        }
      }
      SkipNoZero(s[1..], rest);
    } else {
      assert s + rest == rest;
    }
  }

  /** A literal reads back as its byte. */
  lemma ReadOneLiteral(b: Byte, rest: string)
    ensures ReadLiterals(HexLiteral(b) + rest) == [b] + ReadLiterals(rest)
  {
    var t := HexLiteral(b) + rest;
    assert t[..4] == HexLiteral(b);
    assert t[4..] == rest;
  }

  /** A row's literals, joined by a separator without a '0', read back as the row. */
  lemma {:induction false} ReadJoinedLiterals(chunk: seq<Byte>, sep: string, rest: string)
    requires NoZero(sep)
    ensures ReadLiterals(JoinWith(Literals(chunk), sep) + rest) == chunk + ReadLiterals(rest)
    decreases |chunk|
  {
    if chunk == [] {
      assert JoinWith(Literals(chunk), sep) + rest == rest;
    } else if |chunk| == 1 {
      assert JoinWith(Literals(chunk), sep) == HexLiteral(chunk[0]);
      ReadOneLiteral(chunk[0], rest);
    } else {
      var tail := JoinWith(Literals(chunk[1..]), sep);
      assert Literals(chunk)[1..] == Literals(chunk[1..]);
      calc {
        ReadLiterals(JoinWith(Literals(chunk), sep) + rest);
        { assert JoinWith(Literals(chunk), sep) + rest == HexLiteral(chunk[0]) + (sep + (tail + rest)); }
        ReadLiterals(HexLiteral(chunk[0]) + (sep + (tail + rest)));
        { ReadOneLiteral(chunk[0], sep + (tail + rest)); }
        [chunk[0]] + ReadLiterals(sep + (tail + rest));
        { SkipNoZero(sep, tail + rest); }
        [chunk[0]] + ReadLiterals(tail + rest);
        { ReadJoinedLiterals(chunk[1..], sep, rest); }
        [chunk[0]] + (chunk[1..] + ReadLiterals(rest));
        { assert [chunk[0]] + chunk[1..] == chunk; }
        chunk + ReadLiterals(rest);
      }
    }
  }

  /** The lines joined by ",\n" read back as the rows put together. */
  lemma {:induction false} ReadJoinedRows(rows: seq<seq<Byte>>, rest: string)
    ensures ReadLiterals(JoinWith(RowTexts(rows), ",\n") + rest) == Flatten(rows) + ReadLiterals(rest)
    decreases |rows|
  {
    if rows == [] {
      assert JoinWith(RowTexts(rows), ",\n") + rest == rest;
    } else {
      var row := JoinWith(Literals(rows[0]), ", ");
      var tail := if |rows| == 1 then rest else ",\n" + (JoinWith(RowTexts(rows[1..]), ",\n") + rest);
      calc {
        ReadLiterals(JoinWith(RowTexts(rows), ",\n") + rest);
        { JoinRowsUnfold(rows, rest); }
        ReadLiterals("    " + (row + tail));
        { SkipNoZero("    ", row + tail); }
        ReadLiterals(row + tail);
        { ReadJoinedLiterals(rows[0], ", ", tail); }
        rows[0] + ReadLiterals(tail);
      }
      if |rows| > 1 {
        calc {
          ReadLiterals(tail);
          { SkipNoZero(",\n", JoinWith(RowTexts(rows[1..]), ",\n") + rest); }
          ReadLiterals(JoinWith(RowTexts(rows[1..]), ",\n") + rest);
          { ReadJoinedRows(rows[1..], rest); }
          Flatten(rows[1..]) + ReadLiterals(rest);
        }
        assert Flatten(rows) == rows[0] + Flatten(rows[1..]);
        AppendAssoc(rows[0], Flatten(rows[1..]), ReadLiterals(rest));
      } else {
        assert Flatten(rows) == rows[0] + Flatten(rows[1..]) == rows[0];
      }
    }
  }

  /** The first line of the joined rows, then what follows it. */
  lemma {:induction false} JoinRowsUnfold(rows: seq<seq<Byte>>, rest: string)
    requires rows != []
    ensures JoinWith(RowTexts(rows), ",\n") + rest
            == "    " + (JoinWith(Literals(rows[0]), ", ")
                         + (if |rows| == 1 then rest else ",\n" + (JoinWith(RowTexts(rows[1..]), ",\n") + rest)))
  {
    var lines := RowTexts(rows);
    var first := JoinWith(Literals(rows[0]), ", ");
    assert lines[0] == "    " + first;
    if |rows| > 1 {
      var others := JoinWith(RowTexts(rows[1..]), ",\n");
      assert lines[1..] == RowTexts(rows[1..]);
      assert JoinWith(lines, ",\n") == "    " + first + ",\n" + others;
      Reassociate("    ", first, ",\n", others, rest);
    } else {
      assert JoinWith(lines, ",\n") == "    " + first;
    }
  }

  lemma AppendAssoc(a: seq<Byte>, b: seq<Byte>, c: seq<Byte>)
    ensures a + (b + c) == a + b + c
  {
  }

  lemma Reassociate(a: string, b: string, c: string, d: string, e: string)
    ensures a + b + c + d + e == a + (b + (c + (d + e)))
  {
  }

  /**
   * The array between the fixed opening and closing of the header reads
   * back as exactly the compressed bytes.
   */
  lemma {:induction false} HeaderRoundTrip(compressed: seq<Byte>)
    ensures var h := HeaderText(compressed);
            && |Prefix| + |Suffix| <= |h|
            && h[|Prefix|..|h| - |Suffix|] == ArrayBody(compressed)
            && ReadLiterals(h[|Prefix|..|h| - |Suffix|]) == compressed
  {
    var h := HeaderText(compressed);
    assert h[|Prefix|..|h| - |Suffix|] == ArrayBody(compressed);
    ReadJoinedRows(Rows(compressed), "");
    assert ArrayBody(compressed) + "" == ArrayBody(compressed);
    RowsCover(compressed);
  }

  /** Different compressed bytes give different headers. */
  lemma HeaderInjective(c1: seq<Byte>, c2: seq<Byte>)
    requires HeaderText(c1) == HeaderText(c2)
    ensures c1 == c2
  {
    HeaderRoundTrip(c1);
    HeaderRoundTrip(c2);
  }

  // ---------------------------------------------------------------------
  // main
  // ---------------------------------------------------------------------

  /** `(1 - len(compressed) / len(raw)) * 100 if raw else 0`. */
  function Ratio(raw: seq<Byte>, compressed: seq<Byte>): real
  {
    if raw == [] then 0.0 else (1.0 - (|compressed| as real) / (|raw| as real)) * 100.0
  }

  /** No division for empty input; below 100 and not negative when the output is not empty and not larger. */
  lemma RatioBounds(raw: seq<Byte>, compressed: seq<Byte>)
    ensures raw == [] ==> Ratio(raw, compressed) == 0.0
    ensures 0 < |compressed| <= |raw| ==> 0.0 <= Ratio(raw, compressed) < 100.0
  {
    if 0 < |compressed| <= |raw| {
      var q := (|compressed| as real) / (|raw| as real);
      assert 0.0 < q <= 1.0;
    }
  }

  /**
   * `main`: a missing input gives exit code 1 and writes nothing; otherwise
   * the header of the compressed input is written, the exit code is 0, and
   * the sizes and the ratio are reported.
   */
  method Embed(input: Option<seq<Byte>>, gzip: seq<Byte> -> seq<Byte>)
    returns (code: int, written: Option<string>, rawSize: nat, compressedSize: nat, ratio: real)
    ensures input.None? <==> code == 1
    ensures input.None? ==> written.None?
    ensures input.Some? ==> code == 0 && written == Some(HeaderText(gzip(input.value)))
    ensures input.Some? ==> rawSize == |input.value| && compressedSize == |gzip(input.value)|
                            && ratio == Ratio(input.value, gzip(input.value))
  {
    if input.None? {
      return 1, None, 0, 0, 0.0;
    }
    var raw := input.value;
    var compressed := gzip(raw);
    var lines := RenderLines(compressed);
    var body := JoinWith(lines, ",\n");
    written := Some(Prefix + body + Suffix);
    ratio := if raw != [] then (1.0 - (|compressed| as real) / (|raw| as real)) * 100.0 else 0.0;
    code, rawSize, compressedSize := 0, |raw|, |compressed|;
  }
}
