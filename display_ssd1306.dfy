/**
 * The SSD1306 OLED driver: a 128 x 64 monochrome frame buffer of 1024 bytes,
 * eight pages of 128 column bytes each, where bit k of a column byte is row
 * 8 * page + k. Pixels are written into the buffer and then refreshed on the
 * display over SPI: a command block (D/C low) choosing the column and page
 * window, followed by one data block (D/C high) per page.
 */
module Ssd1306 {
  import opened Bytes

  const WIDTH: int := 128
  const HEIGHT: int := 64
  const PAGES: int := 8
  const FRAME_BYTES: int := 1024

  const CMD_SET_COLUMN_ADDRESS: bv8 := 0x21
  const CMD_SET_PAGE_ADDRESS: bv8 := 0x22

  /** What goes out on SPI: a command block with D/C low, or a data block with D/C high. */
  datatype SpiWrite = Command(bytes: seq<bv8>) | Data(bytes: seq<bv8>)

  predicate OnScreen(x: int, y: int)
  {
    0 <= x < WIDTH && 0 <= y < HEIGHT
  }

  /** `(y >> 3) * TFTWIDTH + (TFTWIDTH - 1) - x`: the column byte holding a pixel, with x mirrored. */
  function PixelIndex(x: int, y: int): (i: int)
    ensures OnScreen(x, y) ==> 0 <= i < FRAME_BYTES
  {
    (y / 8) * 128 + 127 - x
  }

  /** `1 << k` for a bit number k of a byte. */
  function Bit(k: int): bv8
    requires 0 <= k < 8
  {
    if k == 0 then 0x01 else if k == 1 then 0x02 else if k == 2 then 0x04 else if k == 3 then 0x08
    else if k == 4 then 0x10 else if k == 5 then 0x20 else if k == 6 then 0x40 else 0x80
  }

  /** `1 << (y & 0x07)`: the bit of a pixel within its column byte. */
  function PixelMask(y: int): bv8
  {
    Bit(y % 8)
  }

  /** Whether a pixel is lit in a frame. */
  predicate PixelOn(frame: seq<bv8>, x: int, y: int)
    requires |frame| == FRAME_BYTES && OnScreen(x, y)
  {
    frame[PixelIndex(x, y)] & PixelMask(y) != 0
  }

  /** setPixel on a frame: OR the pixel's bit into its byte when on, AND it out when off. */
  function SetPixelSpec(frame: seq<bv8>, on: bool, x: int, y: int): seq<bv8>
    requires |frame| == FRAME_BYTES && OnScreen(x, y)
  {
    var i := PixelIndex(x, y);
    frame[i := SetBits(frame[i], on, PixelMask(y))]
  }

  /** `b | mask` when on, `b & ~mask` when off. */
  function SetBits(b: bv8, on: bool, mask: bv8): bv8
  {
    if on then b | mask else b & !mask
  }

  /** Two pixels on the screen share a byte exactly when they share a column and a page. */
  lemma SameByte(x: int, y: int, px: int, py: int)
    requires OnScreen(x, y) && OnScreen(px, py)
    ensures PixelIndex(x, y) == PixelIndex(px, py) <==> x == px && y / 8 == py / 8
  {
    assert 0 <= (WIDTH - 1) - x < WIDTH && 0 <= (WIDTH - 1) - px < WIDTH;
  }

  /** Setting or clearing one bit of a byte leaves its other bits as they were. */
  lemma MaskBits(b: bv8, k: int, j: int)
    requires 0 <= k < 8 && 0 <= j < 8
    ensures (b | Bit(k)) & Bit(k) != 0
    ensures (b & !Bit(k)) & Bit(k) == 0
    ensures k != j ==> ((b | Bit(k)) & Bit(j) != 0) == (b & Bit(j) != 0)
    ensures k != j ==> ((b & !Bit(k)) & Bit(j) != 0) == (b & Bit(j) != 0)
  {
  }

  /**
   * setPixel lights or darkens exactly its own pixel: every other pixel of
   * the screen, including those sharing its byte, keeps its state.
   */
  lemma SetPixelEffect(frame: seq<bv8>, on: bool, x: int, y: int, px: int, py: int)
    requires |frame| == FRAME_BYTES && OnScreen(x, y) && OnScreen(px, py)
    ensures PixelOn(SetPixelSpec(frame, on, x, y), px, py)
      == if px == x && py == y then on else PixelOn(frame, px, py)
  {
    var i, j := PixelIndex(x, y), PixelIndex(px, py);
    var after := SetPixelSpec(frame, on, x, y);
    SameByte(x, y, px, py);
    if i != j {
      assert after[j] == frame[j];
    } else {
      assert x == px && y / 8 == py / 8;
      assert y == py <==> y % 8 == py % 8;
      MaskBits(frame[i], y % 8, py % 8);
    }
  }

  /** SetPixelEffect for every pixel of the screen at once. */
  lemma SetPixelEverywhere(frame: seq<bv8>, on: bool, x: int, y: int)
    requires |frame| == FRAME_BYTES && OnScreen(x, y)
    ensures forall px, py :: OnScreen(px, py) ==>
      PixelOn(SetPixelSpec(frame, on, x, y), px, py) == if px == x && py == y then on else PixelOn(frame, px, py)
  {
    forall px, py | OnScreen(px, py)
      ensures PixelOn(SetPixelSpec(frame, on, x, y), px, py) == if px == x && py == y then on else PixelOn(frame, px, py)
    {
      SetPixelEffect(frame, on, x, y, px, py);
    }
  }

  /** The data blocks updateRect sends for pages lo..hi-1: columns xorg..xend of each page, in page order. */
  function PageData(frame: seq<bv8>, lo: int, hi: int, xorg: int, xend: int): seq<SpiWrite>
    requires |frame| == FRAME_BYTES && 0 <= lo && hi <= PAGES && 0 <= xorg <= xend < WIDTH
    decreases hi - lo
  {
    if lo >= hi then []
    else PageData(frame, lo, hi - 1, xorg, xend) + [Data(frame[(hi - 1) * WIDTH + xorg .. (hi - 1) * WIDTH + xend + 1])]
  }

  /**
   * The refresh of pages lo..hi-1 is one block per page, in order, and
   * block k holds the xend - xorg + 1 bytes starting at column xorg of page
   * lo + k.
   */
  lemma {:induction false} PageDataBlocks(frame: seq<bv8>, lo: int, hi: int, xorg: int, xend: int)
    requires |frame| == FRAME_BYTES && 0 <= lo <= hi <= PAGES && 0 <= xorg <= xend < WIDTH
    ensures |PageData(frame, lo, hi, xorg, xend)| == hi - lo
    ensures forall k :: 0 <= k < hi - lo ==>
      && PageData(frame, lo, hi, xorg, xend)[k] == Data(frame[(lo + k) * WIDTH + xorg .. (lo + k) * WIDTH + xend + 1])
      && |PageData(frame, lo, hi, xorg, xend)[k].bytes| == xend - xorg + 1
    decreases hi - lo
  {
    if lo < hi {
      PageDataBlocks(frame, lo, hi - 1, xorg, xend);
    }
  }

  /** The command block of updateRect: the column window, then the page window. */
  function WindowCommand(startPage: int, endPage: int, xorg: int, xend: int): seq<bv8>
    requires 0 <= startPage < 0x100 && 0 <= endPage < 0x100 && 0 <= xorg < 0x100 && 0 <= xend < 0x100
  {
    [CMD_SET_COLUMN_ADDRESS, xorg as bv8, xend as bv8, CMD_SET_PAGE_ADDRESS, startPage as bv8, endPage as bv8]
  }

  /** Everything updateRect sends: the command block, then the pages' data blocks. */
  function Refresh(frame: seq<bv8>, startPage: int, endPage: int, xorg: int, xend: int): seq<SpiWrite>
    requires |frame| == FRAME_BYTES && 0 <= startPage <= endPage < PAGES && 0 <= xorg <= xend < WIDTH
  {
    [Command(WindowCommand(startPage, endPage, xorg, xend))] + PageData(frame, startPage, endPage + 1, xorg, xend)
  }

  /** One more page of data blocks is one more block at the end. */
  lemma PageDataStep(frame: seq<bv8>, lo: int, hi: int, xorg: int, xend: int)
    requires |frame| == FRAME_BYTES && 0 <= lo <= hi < PAGES && 0 <= xorg <= xend < WIDTH
    ensures PageData(frame, lo, hi + 1, xorg, xend)
      == PageData(frame, lo, hi, xorg, xend) + [Data(frame[hi * WIDTH + xorg .. hi * WIDTH + xend + 1])]
  {
  }

  /** The traffic before a refresh, the command block, then the data blocks, is the traffic followed by the refresh. */
  lemma RefreshSplit(before: seq<SpiWrite>, frame: seq<bv8>, startPage: int, endPage: int, xorg: int, xend: int)
    requires |frame| == FRAME_BYTES && 0 <= startPage <= endPage < PAGES && 0 <= xorg <= xend < WIDTH
    ensures (before + [Command(WindowCommand(startPage, endPage, xorg, xend))]) + PageData(frame, startPage, endPage + 1, xorg, xend)
      == before + Refresh(frame, startPage, endPage, xorg, xend)
  {
  }

  /**
   * A pixel's byte is among those a refresh sends exactly when the pixel's
   * page is in the page window and its mirrored column 127 - x is in the
   * column window.
   */
  predicate Refreshed(startPage: int, endPage: int, xorg: int, xend: int, x: int, y: int)
  {
    startPage <= y / 8 <= endPage && xorg <= (WIDTH - 1) - x <= xend
  }

  /**
   * For a full-width rectangle, as every caller in the firmware draws, the
   * refresh drawRect issues sends the byte of every pixel of the rectangle.
   */
  lemma FullWidthRefreshCovers(yorg: int, ylen: int, x: int, y: int)
    requires 0 <= yorg && 1 <= ylen && yorg + ylen <= HEIGHT
    requires 0 <= x < WIDTH && yorg <= y < yorg + ylen
    ensures Refreshed(yorg / 8, (yorg + ylen - 1) / 8, 0, WIDTH - 1, x, y)
  {
  }

  /**
   * For a narrow rectangle the column window and the mirrored bytes part
   * company: drawRect over x in [0, 8) and y in [0, 8) stores pixel (0, 0)
   * in column byte 127, but the refresh sends columns 0 to 7 only.
   */
  lemma NarrowRefreshMisses()
    ensures PixelIndex(0, 0) == 127
    ensures !Refreshed(0, 0, 0, 7, 0, 0)
  {
  }

  /** A text band drawn by drawString: the string and the rectangle it is drawn into. */
  datatype TextBand = TextBand(text: seq<char>, xorg: int, yorg: int, xlen: int, ylen: int)

  /** line1: the top band. */
  function Line1(str: seq<char>): TextBand
  {
    TextBand(str, 0, 0, 128, 21)
  }

  /** line2: the middle band. */
  function Line2(str: seq<char>): TextBand
  {
    TextBand(str, 0, 21, 128, 21)
  }

  /** line3: the bottom band, holding the label and the value as formatted by Line3Text. */
  function Line3(str: seq<char>, value: i32): TextBand
  {
    TextBand(Line3Text(str, value), 0, 42, 128, 21)
  }

  /** Whether a pixel lies in a band's rectangle. */
  predicate InBand(b: TextBand, x: int, y: int)
  {
    b.xorg <= x < b.xorg + b.xlen && b.yorg <= y < b.yorg + b.ylen
  }

  /**
   * The three bands are full-width, 21 rows high, on the screen and pairwise
   * disjoint, one below the other; their refreshes cover pages 0-2, 2-5 and
   * 5-7, so neighbouring bands share a page.
   */
  lemma {:induction false} BandsTile(s1: seq<char>, s2: seq<char>, s3: seq<char>, value: i32, x: int, y: int)
    ensures var b1, b2, b3 := Line1(s1), Line2(s2), Line3(s3, value);
      (forall b | b in [b1, b2, b3] :: b.xorg == 0 && b.xlen == WIDTH && b.ylen == 21 && b.yorg + b.ylen <= HEIGHT)
      && !(InBand(b1, x, y) && InBand(b2, x, y)) && !(InBand(b2, x, y) && InBand(b3, x, y))
      && !(InBand(b1, x, y) && InBand(b3, x, y))
      && (OnScreen(x, y) && y < 63 ==> InBand(b1, x, y) || InBand(b2, x, y) || InBand(b3, x, y))
      && b1.yorg / 8 == 0 && (b1.yorg + b1.ylen - 1) / 8 == 2
      && b2.yorg / 8 == 2 && (b2.yorg + b2.ylen - 1) / 8 == 5
      && b3.yorg / 8 == 5 && (b3.yorg + b3.ylen - 1) / 8 == 7
  {
    var b1, b2, b3 := Line1(s1), Line2(s2), Line3(s3, value);
    assert [b1, b2, b3][0] == b1 && [b1, b2, b3][1] == b2 && [b1, b2, b3][2] == b3;
  }

  /**
   * C's `a / b` for a positive divisor, truncated toward zero: it is the one
   * quotient whose remainder `a - q * b` is smaller than b in magnitude and
   * never has the opposite sign to a (section 6.5.5 of C99).
   */
  function CDiv(a: int, b: int): (q: int)
    requires b > 0
    ensures -b < a - q * b < b
    ensures a >= 0 ==> a - q * b >= 0
    ensures a <= 0 ==> a - q * b <= 0
  {
    if a >= 0 then a / b else -((-a) / b)
  }

  /** C's `a % 10`: the remainder takes the sign of a. */
  function CRem10(a: int): (r: int)
    ensures a >= 0 ==> r == a % 10
    ensures a < 0 ==> r == -((-a) % 10)
    ensures -10 < r < 10
  {
    a - CDiv(a, 10) * 10
  }

  /** `(q % 10) + 0x30`: one character of line3's five-digit field, from the quotient q. */
  function DigitChar(q: int): char
  {
    (CRem10(q) + 0x30) as char
  }

  /** The five characters line3 writes after the space, most significant first. */
  function DigitField(value: int): seq<char>
  {
    [DigitChar(CDiv(value, 10000)), DigitChar(CDiv(value, 1000)), DigitChar(CDiv(value, 100)),
     DigitChar(CDiv(value, 10)), DigitChar(value)]
  }

  /** The NUL-terminated string line3 builds: the label, a space, the digit field, NUL. */
  function Line3Text(str: seq<char>, value: i32): seq<char>
  {
    str + [' '] + DigitField(value) + ['\0']
  }

  /** A decimal digit character's value. */
  function DigitValue(c: char): int
  {
    c as int - 0x30
  }

  /** For a non-negative quotient the character is the decimal digit `q % 10`. */
  lemma DigitOfNonNegative(q: int)
    requires q >= 0
    ensures '0' <= DigitChar(q) <= '9'
    ensures DigitValue(DigitChar(q)) == q % 10
  {
  }

  /**
   * For a non-negative value the field is five decimal digits, zero-padded,
   * that read back as the value modulo 100000.
   */
  lemma DigitFieldOfNonNegative(value: int)
    requires value >= 0
    ensures var d := DigitField(value);
      (forall k | 0 <= k < 5 :: '0' <= d[k] <= '9')
      && DigitValue(d[0]) * 10000 + DigitValue(d[1]) * 1000 + DigitValue(d[2]) * 100
         + DigitValue(d[3]) * 10 + DigitValue(d[4]) == value % 100000
  {
    var q1, q2, q3, q4 := value / 10, value / 100, value / 1000, value / 10000;
    var q5 := value / 100000;
    DigitOfNonNegative(q4);
    DigitOfNonNegative(q3);
    DigitOfNonNegative(q2);
    DigitOfNonNegative(q1);
    DigitOfNonNegative(value);
    assert value == 10 * q1 + value % 10;
    assert q2 == q1 / 10;
    assert q1 == 10 * q2 + q1 % 10;
    assert q3 == q2 / 10;
    assert q2 == 10 * q3 + q2 % 10;
    assert q4 == q3 / 10;
    assert q3 == 10 * q4 + q3 % 10;
    assert q5 == q4 / 10;
    assert q4 == 10 * q5 + q4 % 10;
    var low := (q4 % 10) * 10000 + (q3 % 10) * 1000 + (q2 % 10) * 100 + (q1 % 10) * 10 + value % 10;
    assert value == 100000 * q5 + low;
    assert 0 <= low < 100000;
  }

  /**
   * For a negative value C's truncating division makes the characters fall
   * below '0': a pan of -1 is shown as "pan 0000/".
   */
  lemma NegativeValueText()
    ensures Line3Text("pan", -1) == "pan 0000/\0"
  {
  }

  class Display {
    /** `frameBuf`: 128 columns by 8 pages. */
    var frameBuf: array<bv8>
    /** The SPI writes issued so far. */
    var spi: seq<SpiWrite>

    predicate Valid()
      reads this
    {
      frameBuf.Length == FRAME_BYTES
    }

    /** A cleared frame and no SPI traffic yet. */
    constructor ()
      ensures Valid() && fresh(frameBuf) && spi == []
      ensures forall i :: 0 <= i < FRAME_BYTES ==> frameBuf[i] == 0
    {
      frameBuf := new bv8[FRAME_BYTES](_ => 0);
      spi := [];
    }

    /** setPixel: only the pixel's byte changes, as SetPixelSpec says; no pixel but this one changes. */
    method SetPixel(on: bool, x: int, y: int)
      requires Valid() && OnScreen(x, y)
      modifies frameBuf
      ensures frameBuf[..] == SetPixelSpec(old(frameBuf[..]), on, x, y)
    {
      ghost var before := frameBuf[..];
      var i := (y / 8) * 128 + 127 - x;
      var yMask := Bit(y % 8);
      frameBuf[i] := SetBits(frameBuf[i], on, yMask);
    }

    /** The inner loop of drawRect: row y from column xorg to xend. */
    method FillRow(on: bool, y: int, xorg: int, xend: int)
      requires Valid() && 0 <= y < HEIGHT && 0 <= xorg <= xend < WIDTH
      modifies frameBuf
      ensures forall px, py :: OnScreen(px, py) ==>
        PixelOn(frameBuf[..], px, py) == if py == y && xorg <= px <= xend then on else PixelOn(old(frameBuf[..]), px, py)
    {
      var x := xorg;
      while x <= xend
        invariant xorg <= x <= xend + 1
        invariant forall px, py :: OnScreen(px, py) ==>
          PixelOn(frameBuf[..], px, py) == if py == y && xorg <= px < x then on else PixelOn(old(frameBuf[..]), px, py)
      {
        ghost var before := frameBuf[..];
        SetPixel(on, x, y);
        SetPixelEverywhere(before, on, x, y);
        x := x + 1;
      }
    }

    /** The two loops of drawRect: every pixel of the rectangle set to `on`, every other pixel as it was. */
    method Fill(on: bool, xorg: int, yorg: int, xend: int, yend: int)
      requires Valid() && 0 <= xorg <= xend < WIDTH && 0 <= yorg <= yend < HEIGHT
      modifies frameBuf
      ensures forall px, py :: OnScreen(px, py) ==>
        PixelOn(frameBuf[..], px, py)
          == if xorg <= px <= xend && yorg <= py <= yend then on else PixelOn(old(frameBuf[..]), px, py)
    {
      var y := yorg;
      while y <= yend
        invariant yorg <= y <= yend + 1
        invariant forall px, py :: OnScreen(px, py) ==>
          PixelOn(frameBuf[..], px, py)
            == if xorg <= px <= xend && yorg <= py < y then on else PixelOn(old(frameBuf[..]), px, py)
      {
        FillRow(on, y, xorg, xend);
        y := y + 1;
      }
    }

    /**
     * updateRect: the window command with D/C low, then with D/C high the
     * columns xorg..xend of every page from startPage to endPage.
     */
    method UpdateRect(startPage: int, endPage: int, xorg: int, xend: int)
      requires Valid() && 0 <= startPage <= endPage < PAGES && 0 <= xorg <= xend < WIDTH
      modifies this`spi
      ensures spi == old(spi) + Refresh(frameBuf[..], startPage, endPage, xorg, xend)
    {
      ghost var frame := frameBuf[..];
      var command := WindowCommand(startPage, endPage, xorg, xend);
      spi := spi + [Command(command)];
      ghost var start := spi;
      var page := startPage;
      while page <= endPage
        invariant startPage <= page <= endPage + 1
        invariant spi == start + PageData(frame, startPage, page, xorg, xend)
      {
        ghost var prev := spi;
        SendPage(page, xorg, xend);
        PageDataStep(frame, startPage, page, xorg, xend);
        assert spi == start + (PageData(frame, startPage, page, xorg, xend) + [Data(frame[page * WIDTH + xorg .. page * WIDTH + xend + 1])]);
        page := page + 1;
      }
      RefreshSplit(old(spi), frame, startPage, endPage, xorg, xend);
    }

    /** One pass of updateRect's loop: the columns xorg..xend of one page, with D/C high. */
    method SendPage(page: int, xorg: int, xend: int)
      requires Valid() && 0 <= page < PAGES && 0 <= xorg <= xend < WIDTH
      modifies this`spi
      ensures spi == old(spi) + [Data(frameBuf[..][page * WIDTH + xorg .. page * WIDTH + xend + 1])]
    {
      spi := spi + [Data(frameBuf[page * WIDTH + xorg .. page * WIDTH + xend + 1])];
    }

    /**
     * drawRect: the pixels of [xorg, xorg + xlen) x [yorg, yorg + ylen) all
     * in state `on`, every other pixel unchanged, then the refresh of pages
     * yorg >> 3 to (yorg + ylen - 1) >> 3 over columns xorg..xorg + xlen - 1.
     */
    method DrawRect(on: bool, xorg: int, yorg: int, xlen: int, ylen: int)
      requires Valid()
      requires 0 <= xorg && 1 <= xlen && xorg + xlen <= WIDTH
      requires 0 <= yorg && 1 <= ylen && yorg + ylen <= HEIGHT
      modifies frameBuf, this`spi
      ensures forall px, py :: OnScreen(px, py) ==>
        PixelOn(frameBuf[..], px, py)
          == if xorg <= px < xorg + xlen && yorg <= py < yorg + ylen then on else PixelOn(old(frameBuf[..]), px, py)
      ensures spi == old(spi) + Refresh(frameBuf[..], yorg / 8, (yorg + ylen - 1) / 8, xorg, xorg + xlen - 1)
    {
      var xend := xorg + xlen - 1;
      var yend := yorg + ylen - 1;
      Fill(on, xorg, yorg, xend, yend);
      UpdateRect(yorg / 8, yend / 8, xorg, xend);
    }

    /** line3's string, built in `valueStr[30]`: the label, a space, five digits and NUL. */
    static method FormatLine3(str: seq<char>, value: i32) returns (text: seq<char>)
      requires |str| <= 23
      ensures text == Line3Text(str, value)
    {
      var valueStr := new char[30];
      CopyLabel(valueStr, str);
      var i := |str|;
      WriteField(valueStr, i, value);
      text := valueStr[..i + 7];
      assert text == valueStr[..i] + valueStr[i..i + 7];
    }

    /** line3's writes after the label: a space at `i`, the five digit characters, then NUL. */
    static method WriteField(buf: array<char>, i: int, value: i32)
      requires 0 <= i && i + 7 <= buf.Length
      modifies buf
      ensures buf[..i] == old(buf[..i])
      ensures buf[i..i + 7] == [' '] + DigitField(value) + ['\0']
    {
      buf[i] := ' ';
      buf[i + 1] := DigitChar(CDiv(value, 10000));
      buf[i + 2] := DigitChar(CDiv(value, 1000));
      buf[i + 3] := DigitChar(CDiv(value, 100));
      buf[i + 4] := DigitChar(CDiv(value, 10));
      buf[i + 5] := DigitChar(value);
      buf[i + 6] := '\0';
    }

    /** The `strcpy` loop of line3: the label copied into the front of the buffer. */
    static method CopyLabel(buf: array<char>, str: seq<char>)
      requires |str| <= buf.Length
      modifies buf
      ensures buf[..|str|] == str
    {
      var j := 0;
      while j < |str|
        invariant 0 <= j <= |str|
        invariant buf[..j] == str[..j]
      {
        buf[j] := str[j];
        j := j + 1;
      }
    }
  }
}
