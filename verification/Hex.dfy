/**
 The printed form of a buffer (tecc_buffer.c:237-355): two characters for a byte, and the table that
 lays them out in rows. Decoders undo both.
 */
module HexModel {
  import opened Bytes

  /** "0123456789ABCDEF" */
  const TABLE: seq<Byte> :=
    [0x30, 0x31, 0x32, 0x33, 0x34, 0x35, 0x36, 0x37, 0x38, 0x39, 0x41, 0x42, 0x43, 0x44, 0x45, 0x46]
  const SPACE: Byte := 0x20

  /** The value of a `char` that holds byte `b`, converted to int. */
  function CharValue(b: Byte, signed: bool): int {
    if signed && b >= 0x80 then b - 0x100 else b
  }

  predicate Printable(ch: int) {
    0x20 < ch < 0x7F
  }

  /** The table is read inside its bounds; Dafny's division rounds down like `>>` on negative numbers. */
  predicate IndexSafe(ch: int) {
    Printable(ch) || (0 <= ch / 16 < |TABLE| && 0 <= ch % 16 < |TABLE|)
  }

  /** Printing is safe for all bytes if `char` is unsigned, and else for the bytes below 0x80. */
  lemma SafeIff(b: Byte, signed: bool)
    ensures IndexSafe(CharValue(b, signed)) <==> !signed || b < 0x80
  {
    assert CharValue(b, signed) / 16 < 0 <==> CharValue(b, signed) < 0;
  }

  function HexChars(b: Byte): (r: seq<Byte>)
    ensures |r| == 2
  {
    if Printable(b) then [SPACE, b] else [TABLE[b / 16], TABLE[b % 16]]
  }

  predicate IsDigit(c: Byte) {
    0x30 <= c <= 0x39 || 0x41 <= c <= 0x46
  }

  /** A visible ASCII character is shown as itself behind a space, any other byte as two digits. */
  lemma CellShows(b: Byte)
    ensures HexChars(b)[0] == 0x20 <==> 0x21 <= b <= 0x7E
    ensures 0x21 <= b <= 0x7E ==> HexChars(b)[1] == b
    ensures !(0x21 <= b <= 0x7E) ==> IsDigit(HexChars(b)[0]) && IsDigit(HexChars(b)[1])
  {
    assert forall i :: 0 <= i < 16 ==> IsDigit(TABLE[i]);
  }

  function HexOf(bytes: seq<Byte>): (r: seq<Byte>)
    ensures |r| == 2 * |bytes|
  {
    if bytes == [] then [] else HexOf(bytes[..|bytes| - 1]) + HexChars(bytes[|bytes| - 1])
  }

  // ----- Decoding

  /** The value of a hexadecimal digit. */
  function Digit(c: Byte): nat {
    if 0x30 <= c <= 0x39 then c - 0x30 else if 0x41 <= c <= 0x46 then c - 0x41 + 10 else 0
  }

  function DecodeChars(c: Byte, d: Byte): Byte {
    if c == SPACE then d else 16 * Digit(c) + Digit(d)
  }

  function Decode(hex: seq<Byte>): seq<Byte> {
    if |hex| < 2 then [] else [DecodeChars(hex[0], hex[1])] + Decode(hex[2..])
  }

  lemma DecodeByte(b: Byte)
    ensures var h := HexChars(b); DecodeChars(h[0], h[1]) == b && h[0] != 0 && h[1] != 0
  {
    if !Printable(b) {
      assert forall i :: 0 <= i < 16 ==> Digit(TABLE[i]) == i && TABLE[i] != SPACE && TABLE[i] != 0;
      assert b == 16 * (b / 16) + b % 16;
    }
  }

  lemma {:induction false} DecodeConcat(a: seq<Byte>, b: seq<Byte>)
    requires |a| % 2 == 0
    ensures Decode(a + b) == Decode(a) + Decode(b)
  {
    if a == [] {
      assert a + b == b;
    } else {
      assert (a + b)[2..] == a[2..] + b;
      DecodeConcat(a[2..], b);
    }
  }

  /** The decoder gives back every sequence of bytes. */
  lemma {:induction false} DecodeHex(bytes: seq<Byte>)
    ensures Decode(HexOf(bytes)) == bytes
  {
    if bytes != [] {
      var n := |bytes| - 1;
      DecodeHex(bytes[..n]);
      DecodeConcat(HexOf(bytes[..n]), HexChars(bytes[n]));
      DecodeByte(bytes[n]);
    }
  }

  lemma {:induction false} HexAt(bytes: seq<Byte>, i: nat)
    requires i < |bytes|
    ensures HexOf(bytes)[2 * i] == HexChars(bytes[i])[0] && HexOf(bytes)[2 * i + 1] == HexChars(bytes[i])[1]
  {
    var n := |bytes| - 1;
    if i < n {
      HexAt(bytes[..n], i);
    }
  }

  // ----- The part of the buffer that is printed

  /** The range from `start` of `len` bytes, clipped to the buffer; `len` 0 stands for all of it. */
  function Clip(bytes: seq<Byte>, start: int, len: nat): seq<Byte> {
    var from := if start < 0 then 0 else start;
    if from > |bytes| then []
    else if len == 0 || from + len > |bytes| then bytes[from..]
    else bytes[from..from + len]
  }

  /** Counting from 0 for a negative start, it is the next `len` bytes or as many as there are, all of them for `len` 0. */
  lemma ClipIs(bytes: seq<Byte>, start: int, len: nat)
    ensures start < 0 ==> Clip(bytes, start, len) == Clip(bytes, 0, len)
    ensures start > |bytes| ==> Clip(bytes, start, len) == []
    ensures 0 <= start <= |bytes| ==>
      && Clip(bytes, start, len) <= bytes[start..]
      && (len == 0 || start + len >= |bytes| ==> |Clip(bytes, start, len)| == |bytes| - start)
      && (0 < len <= |bytes| - start ==> |Clip(bytes, start, len)| == len)
  {
  }

  // ----- The table

  const CELLS_PER_ROW: nat := 32
  const BLANK: seq<Byte> := [SPACE, SPACE]

  /** What starts a row, by the offset it is labelled with: the end of the previous row and the label. */
  type Prefix = nat -> seq<Byte>

  /** The offset of the row that cell `k` is in, and of the row after the first `k` cells. */
  function RowOf(k: nat): (r: nat)
    ensures r <= k < r + CELLS_PER_ROW && StartsRow(r)
  {
    k / 32 * 32
  }

  function NextRow(k: nat): (r: nat)
    ensures k <= r < k + CELLS_PER_ROW && (r == k <==> StartsRow(k))
  {
    (k + 31) / 32 * 32
  }

  predicate StartsRow(k: nat) {
    k % 32 == 0
  }

  lemma NextRowStep(k: nat)
    ensures NextRow(k + 1) == if StartsRow(k) then NextRow(k) + CELLS_PER_ROW else NextRow(k)
  {
  }

  /** `start` blank cells and then one cell for each byte. */
  function Cells(start: nat, bytes: seq<Byte>): seq<seq<Byte>> {
    seq(start, _ => BLANK) + seq(|bytes|, i requires 0 <= i < |bytes| => HexChars(bytes[i]))
  }

  /** The rows as the loop appends them, cell after cell. */
  function Render(cells: seq<seq<Byte>>, prefix: Prefix, offset: nat): seq<Byte> {
    if cells == [] then [] else
      var k := |cells| - 1;
      Render(cells[..k], prefix, offset)
      + (if StartsRow(k) then prefix(offset + k) else [])
      + cells[k]
  }

  function Join(cells: seq<seq<Byte>>): seq<Byte> {
    if cells == [] then [] else Join(cells[..|cells| - 1]) + cells[|cells| - 1]
  }

  /** The rows one by one: a prefix and up to 32 cells. */
  function Rows(cells: seq<seq<Byte>>, prefix: Prefix, offset: nat): seq<Byte>
    decreases |cells|
  {
    if cells == [] then []
    else if |cells| <= CELLS_PER_ROW then prefix(offset) + Join(cells)
    else prefix(offset) + Join(cells[..CELLS_PER_ROW])
         + Rows(cells[CELLS_PER_ROW..], prefix, offset + CELLS_PER_ROW)
  }

  ghost predicate AreCells(cells: seq<seq<Byte>>) {
    forall i :: 0 <= i < |cells| ==> |cells[i]| == 2
  }

  lemma {:induction false} JoinLength(cells: seq<seq<Byte>>)
    requires AreCells(cells)
    ensures |Join(cells)| == 2 * |cells|
  {
    if cells != [] {
      JoinLength(cells[..|cells| - 1]);
    }
  }

  lemma {:induction false} JoinConcat(a: seq<seq<Byte>>, b: seq<seq<Byte>>)
    ensures Join(a + b) == Join(a) + Join(b)
  {
    if b == [] {
      assert a + b == a;
    } else {
      var n := |b| - 1;
      assert (a + b)[..|a + b| - 1] == a + b[..n];
      JoinConcat(a, b[..n]);
    }
  }

  /** The first row of the loop's output is a prefix and its cells. */
  lemma {:induction false} FirstRow(cells: seq<seq<Byte>>, prefix: Prefix, offset: nat)
    requires 0 < |cells| <= CELLS_PER_ROW
    ensures Render(cells, prefix, offset) == prefix(offset) + Join(cells)
  {
    var k := |cells| - 1;
    if k > 0 {
      FirstRow(cells[..k], prefix, offset);
    } else {
      assert Render(cells, prefix, offset) == prefix(offset) + cells[0];
    }
  }

  /** A full row can be split off. */
  lemma {:induction false} SplitRow(cells: seq<seq<Byte>>, prefix: Prefix, offset: nat)
    requires |cells| >= CELLS_PER_ROW
    ensures Render(cells, prefix, offset)
         == Render(cells[..CELLS_PER_ROW], prefix, offset)
            + Render(cells[CELLS_PER_ROW..], prefix, offset + CELLS_PER_ROW)
  {
    var rest := cells[CELLS_PER_ROW..];
    if rest == [] {
      assert cells[..CELLS_PER_ROW] == cells;
    } else {
      var k := |cells| - 1;
      SplitRow(cells[..k], prefix, offset);
      assert cells[..k][..CELLS_PER_ROW] == cells[..CELLS_PER_ROW];
      assert cells[..k][CELLS_PER_ROW..] == rest[..|rest| - 1];
      assert StartsRow(k) <==> StartsRow(|rest| - 1);
    }
  }

  /** The loop lays the cells out in rows. */
  lemma {:induction false} RenderIsRows(cells: seq<seq<Byte>>, prefix: Prefix, offset: nat)
    ensures Render(cells, prefix, offset) == Rows(cells, prefix, offset)
    decreases |cells|
  {
    if |cells| > CELLS_PER_ROW {
      SplitRow(cells, prefix, offset);
      FirstRow(cells[..CELLS_PER_ROW], prefix, offset);
      RenderIsRows(cells[CELLS_PER_ROW..], prefix, offset + CELLS_PER_ROW);
    } else if cells != [] {
      FirstRow(cells, prefix, offset);
    }
  }

  /** Removes the prefixes from the rows, each of which is 64 characters wide but for the last. */
  function Strip(text: seq<Byte>, prefix: Prefix, offset: nat): seq<Byte>
    decreases |text|
  {
    var width := |prefix(offset)|;
    if width == 0 || |text| < width then []
    else if |text| <= width + 2 * CELLS_PER_ROW then text[width..]
    else text[width..width + 2 * CELLS_PER_ROW]
         + Strip(text[width + 2 * CELLS_PER_ROW..], prefix, offset + CELLS_PER_ROW)
  }

  lemma {:induction false} StripRows(cells: seq<seq<Byte>>, prefix: Prefix, offset: nat)
    requires AreCells(cells) && cells != [] && forall o :: prefix(o) != []
    ensures Strip(Rows(cells, prefix, offset), prefix, offset) == Join(cells)
    decreases |cells|
  {
    JoinLength(cells);
    var text, width := Rows(cells, prefix, offset), |prefix(offset)|;
    if |cells| <= CELLS_PER_ROW {
      assert text[width..] == Join(cells);
    } else {
      var row, rest := cells[..CELLS_PER_ROW], cells[CELLS_PER_ROW..];
      StripRows(rest, prefix, offset + CELLS_PER_ROW);
      JoinLength(row);
      JoinConcat(row, rest);
      assert row + rest == cells;
      RowsNotEmpty(rest, prefix, offset + CELLS_PER_ROW);
      assert text[width..width + 2 * CELLS_PER_ROW] == Join(row);
      assert text[width + 2 * CELLS_PER_ROW..] == Rows(rest, prefix, offset + CELLS_PER_ROW);
    }
  }

  lemma RowsNotEmpty(cells: seq<seq<Byte>>, prefix: Prefix, offset: nat)
    requires cells != [] && prefix(offset) != []
    ensures Rows(cells, prefix, offset) != []
  {
  }

  lemma {:induction false} JoinHex(bytes: seq<Byte>)
    ensures Join(Cells(0, bytes)) == HexOf(bytes)
  {
    if bytes != [] {
      var n := |bytes| - 1;
      JoinHex(bytes[..n]);
      assert Cells(0, bytes)[..n] == Cells(0, bytes[..n]);
    }
  }

  lemma {:induction false} JoinBlanks(cells: seq<seq<Byte>>)
    requires forall k :: 0 <= k < |cells| ==> cells[k] == BLANK
    ensures forall i :: 0 <= i < |Join(cells)| ==> Join(cells)[i] == 0x20
  {
    if cells != [] {
      JoinBlanks(cells[..|cells| - 1]);
    }
  }

  lemma CellsSplit(start: nat, bytes: seq<Byte>)
    ensures Cells(start, bytes) == Cells(start, []) + Cells(0, bytes)
    ensures AreCells(Cells(start, bytes)) && |Cells(start, bytes)| == start + |bytes|
    ensures forall k :: 0 <= k < start ==> Cells(start, bytes)[k] == BLANK
  {
  }

  /**
   The rows of a table without their prefixes are two blanks for each of the first `start` bytes and
   then the hexadecimal string, from which the decoder gets the bytes.
   */
  lemma TableDecodes(start: nat, bytes: seq<Byte>, prefix: Prefix, offset: nat)
    requires bytes != [] && forall o :: prefix(o) != []
    ensures var body := Strip(Render(Cells(start, bytes), prefix, offset), prefix, offset);
      && body == Join(Cells(start, [])) + HexOf(bytes)
      && |Join(Cells(start, []))| == 2 * start && (forall i :: 0 <= i < 2 * start ==> body[i] == 0x20)
      && Decode(body[2 * start..]) == bytes
  {
    var cells := Cells(start, bytes);
    CellsSplit(start, bytes);
    CellsSplit(start, []);
    RenderIsRows(cells, prefix, offset);
    StripRows(cells, prefix, offset);
    JoinConcat(Cells(start, []), Cells(0, bytes));
    JoinHex(bytes);
    JoinLength(Cells(start, []));
    JoinBlanks(Cells(start, []));
    DecodeHex(bytes);
    assert (Join(Cells(start, [])) + HexOf(bytes))[2 * start..] == HexOf(bytes);
  }
}

/** The printers of tecc_buffer.c on buffers. */
module Hex {
  import opened Bytes
  import opened HexModel
  import opened Options
  import B = Buffer
  import BM = BufferModel

  const HEX_BLOCK_SIZE: nat := 256
  const TABLE_BLOCK_SIZE: nat := 256

  function Ascii(s: string): seq<Byte> {
    seq(|s|, i requires 0 <= i < |s| => s[i] as int % 256)
  }

  /** The labels of the first line, one for every second cell. */
  const LABELS: seq<string> :=
    ["00  ", "02  ", "04  ", "06  ", "08  ", "10  ", "12  ", "14  ",
     "16  ", "18  ", "20  ", "22  ", "24  ", "26  ", "28  ", "30  "]

  function Columns(labels: seq<string>): seq<Byte> {
    if labels == [] then [] else Columns(labels[..|labels| - 1]) + Ascii(labels[|labels| - 1])
  }

  const HEADER: seq<Byte> :=
    Ascii(" offset |") + Columns(LABELS) + Ascii("|\n") + Ascii("========|") + Columns(seq(16, _ => "++--"))

  lemma {:induction false} ColumnAt(labels: seq<string>, k: nat)
    requires (forall i :: 0 <= i < |labels| ==> |labels[i]| == 4) && k < |labels|
    ensures |Columns(labels)| == 4 * |labels| && Columns(labels)[4 * k..4 * k + 4] == Ascii(labels[k])
  {
    var n := |labels| - 1;
    if n > 0 {
      ColumnAt(labels[..n], if k < n then k else 0);
    }
  }

  /**
   In the first line the label 2k, in two decimal digits, stands where a row has cell 2k: behind the nine
   characters of its offset and two for each cell before it.
   */
  lemma HeaderLabels(k: nat)
    requires k < 16
    ensures |HEADER| == 148 && HEADER[74] == 0x0A
    ensures HEADER[9 + 2 * (2 * k)] == 0x30 + 2 * k / 10 && HEADER[9 + 2 * (2 * k) + 1] == 0x30 + 2 * k % 10
  {
    hide Columns;
    ColumnAt(LABELS, k);
    ColumnAt(seq(16, _ => "++--"), 0);
    LabelIs(k);
    var columns := Columns(LABELS);
    assert columns[4 * k] == columns[4 * k..4 * k + 4][0] && columns[4 * k + 1] == columns[4 * k..4 * k + 4][1];
  }

  lemma LabelIs(k: nat)
    requires k < 16
    ensures (forall i :: 0 <= i < 16 ==> |LABELS[i]| == 4)
    ensures Ascii(LABELS[k])[0] == 0x30 + 2 * k / 10 && Ascii(LABELS[k])[1] == 0x30 + 2 * k % 10
  {
    if k < 8 {
      FirstLabels(k);
    } else {
      LastLabels(k);
    }
  }

  lemma FirstLabels(k: nat)
    requires k < 8
    ensures LABELS[k][0] as int == 0x30 + 2 * k / 10 && LABELS[k][1] as int == 0x30 + 2 * k % 10
  {
  }

  lemma LastLabels(k: nat)
    requires 8 <= k < 16
    ensures LABELS[k][0] as int == 0x30 + 2 * k / 10 && LABELS[k][1] as int == 0x30 + 2 * k % 10
  {
  }

  /** Whole blocks, at least one, that hold more than `n` bytes. */
  function BlocksAbove(n: nat, blockSize: nat): (r: nat)
    requires blockSize > 0
    ensures n < r <= n + blockSize && r >= blockSize
  {
    BM.Blocks(n, blockSize);
    n / blockSize * blockSize + blockSize
  }

  /** The decoder gives back the character; None: the table would be read outside its bounds. */
  method ToHexChars(ch: int) returns (chars: Option<(Byte, Byte)>)
    ensures chars.Some? <==> IndexSafe(ch)
    ensures chars.Some? ==> var (c, d) := chars.value;
      0 <= ch < 0x100 && DecodeChars(c, d) == ch && c != 0 && d != 0 && [c, d] == HexChars(ch)
  {
    if 0x20 < ch && ch < 0x7F {
      chars := Some((SPACE, ch));
    } else if 0 <= ch / 16 < |TABLE| {
      DecodeByte(ch);
      chars := Some((TABLE[ch / 16], TABLE[ch % 16]));
    } else {
      chars := None;
    }
  }

  ghost predicate AllSafe(part: seq<Byte>, signed: bool) {
    forall i :: 0 <= i < |part| ==> IndexSafe(CharValue(part[i], signed))
  }

  lemma HexNext(part: seq<Byte>, i: nat)
    requires i < |part|
    ensures HexOf(part[..i + 1]) == HexOf(part[..i]) + HexChars(part[i])
  {
    assert part[..i + 1][..i] == part[..i];
  }

  /** The loop of as_hex and the NUL behind it. */
  method Fill(out: array<Byte>, data: array<Byte>, start: nat, len: nat, signed: bool)
    returns (ok: bool, pos: nat)
    requires start + len <= data.Length && 2 * len < out.Length && out != data
    modifies out
    ensures ok <==> AllSafe(data[start..start + len], signed)
    ensures ok ==> pos == 2 * len && out[..pos] == HexOf(data[start..start + len]) && out[pos] == 0
  {
    hide HexChars, IndexSafe;
    ghost var part := data[start..start + len];
    pos := 0;
    var i := 0;
    while i < len
      invariant 0 <= i <= len && pos == 2 * i && out[..pos] == HexOf(part[..i])
      invariant data[start..start + len] == part && AllSafe(part[..i], signed)
    {
      HexNext(part, i);
      assert part[i] == data[start + i];
      var chars := ToHexChars(CharValue(data[start + i], signed));
      if chars.None? {
        return false, pos;
      }
      var (c, d) := chars.value;
      ghost var done := out[..pos];
      out[pos] := c;
      out[pos + 1] := d;
      assert out[..pos + 2] == done + [c, d];
      pos, i := pos + 2, i + 1;
    }
    assert part[..len] == part;
    out[pos] := 0;
    ok := true;
  }

  /**
   `signed` tells whether `char` is a signed type. Not `ok`: printing some byte of the range reads the
   table outside its bounds, where the behaviour of C is undefined.
   */
  method AsHex(src: B.TecBuffer, start: int, len: nat, signed: bool) returns (ok: bool, dst: B.TecBuffer)
    requires src.Valid()
    ensures fresh(dst) && dst.Valid() && (dst.data != null ==> fresh(dst.data))
    ensures ok <==> AllSafe(Clip(src.Contents().bytes, start, len), signed)
    ensures ok ==> var hex := HexOf(Clip(src.Contents().bytes, start, len)); dst.Contents() == BM.File(hex, |hex|)
    ensures ok && dst.data != null ==> dst.size < dst.capacity && dst.data[dst.size] == 0
    ensures ok && dst.data == null ==> Clip(src.Contents().bytes, start, len) == []
  {
    hide Clip, HexOf, AllSafe;
    ClipRange(src.Contents().bytes, start, len);
    dst := new B.TecBuffer(0, HEX_BLOCK_SIZE);
    NothingSafe(signed);
    ok := true;
    if src.size == 0 {
      return;
    }
    var from := if start < 0 then 0 else start;
    var n := if len == 0 then src.size else len;
    if from > src.size {
      return;
    }
    if from + n > src.size {
      n := src.size - from;
    }
    assert src.Contents().bytes[from..from + n] == src.data[from..from + n];
    var size := 2 * n + 1;
    dst.blockSize := BlocksAbove(size, HEX_BLOCK_SIZE);
    dst.EnsureCapacity(0, size);
    var pos;
    ok, pos := Fill(dst.data, src.data, from, n, signed);
    if ok {
      dst.size, dst.pos := pos, pos;
    }
  }

  lemma NothingSafe(signed: bool)
    ensures AllSafe([], signed)
  {
  }

  /** The range the parameter checks of as_hex leave. */
  lemma ClipRange(bytes: seq<Byte>, start: int, len: nat)
    ensures HexOf([]) == []
    ensures var from := if start < 0 then 0 else start; var n := if len == 0 then |bytes| else len;
      Clip(bytes, start, len) ==
        if from > |bytes| then [] else bytes[from..if from + n > |bytes| then |bytes| else from + n]
  {
  }

  /** The text of the table. */
  function TableText(bytes: seq<Byte>, start: int, len: nat, prefix: Prefix): seq<Byte> {
    var from: nat := if start < 0 then 0 else start;
    var part := Clip(bytes, start, len);
    HEADER + if part == [] then prefix(RowOf(from)) else Render(Cells(from, part), prefix, RowOf(from))
  }

  /** Without a byte to print there is one row prefix, for the row that `start` would be in. */
  lemma NothingToPrint(bytes: seq<Byte>, start: nat, len: nat, prefix: Prefix, row: nat)
    requires Clip(bytes, start, len) == [] && row % 32 == 0 && row <= start < row + 32
    ensures TableText(bytes, start, len, prefix) == HEADER + prefix(row)
  {
  }

  /** The table starts with the prefix for the offset it is rendered from. */
  lemma FirstPrefix(cells: seq<seq<Byte>>, prefix: Prefix, offset: nat)
    requires cells != []
    ensures prefix(offset) <= Render(cells, prefix, offset)
  {
    RenderIsRows(cells, prefix, offset);
  }

  /** Rendering from different offsets can be told apart. */
  lemma OffsetShows(cells: seq<seq<Byte>>, offset: nat) returns (prefix: Prefix)
    requires cells != [] && offset != 0
    ensures Render(cells, prefix, offset) != Render(cells, prefix, 0)
  {
    prefix := o => if o == 0 then [1] else [2];
    FirstPrefix(cells, prefix, offset);
    FirstPrefix(cells, prefix, 0);
    hide Render;
    assert Render(cells, prefix, offset)[0] == 2 && Render(cells, prefix, 0)[0] == 1;
  }

  lemma SameBehind(header: seq<Byte>, a: seq<Byte>, b: seq<Byte>)
    requires header + a == header + b
    ensures a == b
  {
    assert (header + a)[|header|..] == a && (header + b)[|header|..] == b;
  }

  lemma TextOfPart(bytes: seq<Byte>, start: int, len: nat, prefix: Prefix)
    requires Clip(bytes, start, len) != []
    ensures var from: nat := if start < 0 then 0 else start;
      TableText(bytes, start, len, prefix) == HEADER + Render(Cells(from, Clip(bytes, start, len)), prefix, RowOf(from))
  {
  }

  /**
   Cell `k` of a table shows byte `k` of the buffer, the first `start` of them blank, so the rows should
   be labelled from offset 0 on. They are exactly if `start` is in the first row.
   */
  lemma LabelsMatchIff(bytes: seq<Byte>, start: int, len: nat)
    requires Clip(bytes, start, len) != []
    ensures var from: nat := if start < 0 then 0 else start;
      (forall prefix: Prefix :: TableText(bytes, start, len, prefix)
                                == HEADER + Render(Cells(from, Clip(bytes, start, len)), prefix, 0))
      <==> from < CELLS_PER_ROW
  {
    hide TableText, Render, Clip, Cells;
    var from: nat := if start < 0 then 0 else start;
    var cells := Cells(from, Clip(bytes, start, len));
    CellsSplit(from, Clip(bytes, start, len));
    if from >= CELLS_PER_ROW {
      var prefix := OffsetShows(cells, RowOf(from));
      TextOfPart(bytes, start, len, prefix);
      if TableText(bytes, start, len, prefix) == HEADER + Render(cells, prefix, 0) {
        SameBehind(HEADER, Render(cells, prefix, RowOf(from)), Render(cells, prefix, 0));
      }
    } else {
      forall prefix: Prefix
        ensures TableText(bytes, start, len, prefix) == HEADER + Render(cells, prefix, 0)
      {
        TextOfPart(bytes, start, len, prefix);
      }
    }
  }

  /** The buffer has its first block and holds the string `text`. */
  ghost predicate Printed(dst: B.TecBuffer, text: seq<Byte>)
    reads dst, dst.data
  {
    dst.Valid() && dst.capacity > 0 && dst.Contents() == BM.Holding(text)
  }

  method Put(dst: B.TecBuffer, str: seq<Byte>, ghost text: seq<Byte>)
    requires Printed(dst, text)
    modifies dst, dst.data
    ensures Printed(dst, text + str)
    ensures dst.data == old(dst.data) || fresh(dst.data)
  {
    BM.PutsAppends(text, str);
    var n := dst.Puts(Some(str));
  }

  /** `prefix` is what sprintf makes of the row format and an offset. */
  method AsTable(src: B.TecBuffer, start: int, len: nat, signed: bool, prefix: Prefix)
    returns (ok: bool, dst: B.TecBuffer)
    requires src.Valid()
    ensures fresh(dst) && dst.Valid()
    ensures ok <==> AllSafe(Clip(src.Contents().bytes, start, len), signed)
    ensures ok ==> dst.Contents() == BM.Holding(TableText(src.Contents().bytes, start, len, prefix))
  {
    hide Clip, HexOf, Render, BM.Puts;
    var tmp;
    ok, tmp := AsHex(src, start, len, signed);
    if !ok {
      return false, tmp;
    }
    ghost var part := Clip(src.Contents().bytes, start, len);
    var blockSize := BlocksAbove(tmp.size, TABLE_BLOCK_SIZE) + 2;
    dst := new B.TecBuffer(blockSize, blockSize);
    assert dst.Contents() == BM.Holding([]);
    Put(dst, HEADER, []);
    assert [] + HEADER == HEADER;
    var from := if start < 0 then 0 else start;
    var startOffset := RowOf(from);
    if tmp.size == 0 || tmp.data == null {
      Put(dst, prefix(startOffset), HEADER);
      return;
    }
    PrintRows(dst, tmp.data, tmp.size, from, startOffset, prefix, HEADER, part);
  }

  lemma RenderNothing(header: seq<Byte>, cells: seq<seq<Byte>>, prefix: Prefix, offset: nat)
    ensures header == header + Render(cells[..0], prefix, offset)
    ensures NextRow(0) == 0
  {
  }

  /** What the loop appends for cell `k`. */
  lemma RenderNext(header: seq<Byte>, cells: seq<seq<Byte>>, prefix: Prefix, offset: nat, k: nat)
    requires k < |cells|
    ensures var before := header + Render(cells[..k], prefix, offset);
      header + Render(cells[..k + 1], prefix, offset)
      == (if StartsRow(k) then before + prefix(offset + k) else before) + cells[k]
  {
    assert cells[..k + 1][..k] == cells[..k];
    var r := Render(cells[..k], prefix, offset);
    if StartsRow(k) {
      assert header + (r + prefix(offset + k) + cells[k]) == header + r + prefix(offset + k) + cells[k];
    } else {
      assert header + (r + [] + cells[k]) == header + r + cells[k];
    }
  }

  lemma CellAt(part: seq<Byte>, i: nat, start: nat)
    requires i < |part|
    ensures Cells(start, part)[start + i] == HexChars(part[i])
  {
  }

  lemma TextOfPair(c: Byte, d: Byte)
    requires c != 0 && d != 0
    ensures Text([c, d, 0]) == [c, d]
  {
    TextEnds([c, d, 0], 2);
  }

  /** The cell that the pair of characters at `2 * i` makes. */
  lemma PairIsCell(part: seq<Byte>, i: nat, c: Byte, d: Byte, start: nat, k: nat)
    requires i < |part| && c == HexOf(part)[2 * i] && d == HexOf(part)[2 * i + 1] && k == start + i
    ensures Text([c, d, 0]) == Cells(start, part)[k]
  {
    hide *;
    CellAt(part, i, start);
    HexAt(part, i);
    DecodeByte(part[i]);
    TextOfPair(c, d);
    assert HexChars(part[i]) == [c, d];
  }

  /** Cell `nbyte` starts a new row, or continues one. */
  method StartRow(dst: B.TecBuffer, nbyte: nat, offset: nat, prefix: Prefix, ghost text: seq<Byte>)
    returns (offset': nat, ghost text': seq<Byte>)
    requires Printed(dst, text)
    modifies dst, dst.data
    ensures Printed(dst, text')
    ensures dst.data == old(dst.data) || fresh(dst.data)
    ensures text' == if StartsRow(nbyte) then text + prefix(offset) else text
    ensures offset' == if StartsRow(nbyte) then offset + CELLS_PER_ROW else offset
  {
    offset', text' := offset, text;
    if nbyte % 32 == 0 {
      Put(dst, prefix(offset), text);
      offset', text' := offset + CELLS_PER_ROW, text + prefix(offset);
    }
  }

  /** Two blanks, or the next two characters of the hexadecimal string as a C string. */
  method NextCell(s: array<Byte>, n: nat, nbyte: nat, start: nat, ghost part: seq<Byte>)
    returns (cell: seq<Byte>, n': nat)
    requires n == (if nbyte <= start then 0 else 2 * (nbyte - start)) && nbyte < start + |part|
    requires 2 * |part| <= s.Length && s[..2 * |part|] == HexOf(part)
    ensures cell == Cells(start, part)[nbyte] && n' == if nbyte < start then n else n + 2
  {
    CellsSplit(start, part);
    if nbyte < start {
      return BLANK, n;
    }
    hide Cells, HexOf;
    var c, d := s[n], s[n + 1];
    assert c == s[..2 * |part|][n] && d == s[..2 * |part|][n + 1];
    PairIsCell(part, nbyte - start, c, d, start, nbyte);
    return Text([c, d, 0]), n + 2;
  }

  method PrintRows(dst: B.TecBuffer, s: array<Byte>, size: nat, start: nat, startOffset: nat, prefix: Prefix,
                   ghost header: seq<Byte>, ghost part: seq<Byte>)
    requires Printed(dst, header) && s != dst.data
    requires 0 < size <= s.Length && s[..size] == HexOf(part)
    modifies dst, dst.data
    ensures Printed(dst, header + Render(Cells(start, part), prefix, startOffset))
  {
    hide HexOf, Cells, Render, NextRow, Printed;
    ghost var cells := Cells(start, part);
    CellsSplit(start, part);
    ghost var text := header;
    RenderNothing(header, cells, prefix, startOffset);
    var offset, n, nbyte := startOffset, 0, 0;
    while n < size
      invariant 0 <= nbyte <= |cells| && n == (if nbyte <= start then 0 else 2 * (nbyte - start))
      invariant Printed(dst, text) && (dst.data == old(dst.data) || fresh(dst.data))
      invariant text == header + Render(cells[..nbyte], prefix, startOffset)
      invariant offset == startOffset + NextRow(nbyte)
      invariant s[..size] == HexOf(part)
      decreases |cells| - nbyte
    {
      RenderNext(header, cells, prefix, startOffset, nbyte);
      NextRowStep(nbyte);
      offset, text := StartRow(dst, nbyte, offset, prefix, text);
      var cell: seq<Byte>;
      cell, n := NextCell(s, n, nbyte, start, part);
      Put(dst, cell, text);
      text := text + cell;
      nbyte := nbyte + 1;
    }
    assert cells[..nbyte] == cells;
  }
}
