/**
 * The receipt builder of lib/printer.js. A Printer collects ESC/POS bytes in
 * its queue (`buf` here); every builder method appends an exact sequence of
 * bytes, `print` adds the page footer and hands the queue to the spooler, and
 * a successful send or `empty` clears it.
 *
 * Each byte sequence a method appends is first defined as a function of the
 * method's arguments (TextBytes, LineHeightBytes, BarcodeBytes, QrBytes, ...);
 * the lemmas next to those functions state what the bytes mean, and the
 * methods of the class are proved to append exactly them.
 */
module Printer {
  import opened JsRuntime
  import opened Commands

  // ---------------------------------------------------------------------
  // Counting loops
  // ---------------------------------------------------------------------

  /** How many times `for (let i = 0; i < n; i++)` runs. */
  function Times(n: int): (k: nat)
    ensures n >= 0 ==> k == n
    ensures n <= 0 ==> k == 0
  {
    if n < 0 then 0 else n
  }

  /** `s` written `n` times one after another. */
  function Repeat<T>(s: seq<T>, n: nat): (r: seq<T>)
    ensures |r| == n * |s|
  {
    if n == 0 then [] else Repeat(s, n - 1) + s
  }

  /** Repeating one element gives n copies of it. */
  lemma {:induction false} RepeatSingle<T>(x: T, n: nat)
    ensures forall i :: 0 <= i < n ==> Repeat([x], n)[i] == x
  {
    if n > 0 {
      RepeatSingle(x, n - 1);
      assert Repeat([x], n) == Repeat([x], n - 1) + [x];
    }
  }

  /** Repeating the empty string gives the empty string, however often. */
  lemma {:induction false} RepeatEmpty<T>(n: nat)
    ensures Repeat<T>([], n) == []
  {
    if n > 0 {
      RepeatEmpty<T>(n - 1);
    }
  }

  // ---------------------------------------------------------------------
  // text, setLineheight
  // ---------------------------------------------------------------------

  /**
   * What `text(s, inline)` writes with the GBK encoder gbk: nothing for the
   * empty string, otherwise the GBK bytes followed by a line feed unless the
   * text is inline.
   */
  function TextBytes(gbk: string -> seq<byte>, s: string, inline: bool): seq<byte> {
    if s == "" then [] else gbk(s) + (if inline then [] else Cmd(NewLine))
  }

  /**
   * The empty string writes nothing, inline or not; any other text writes
   * its GBK bytes, and the line form adds exactly one line feed to them.
   */
  lemma TextLineFeed(gbk: string -> seq<byte>, s: string)
    ensures TextBytes(gbk, "", true) == TextBytes(gbk, "", false) == []
    ensures s != "" ==> TextBytes(gbk, s, true) == gbk(s)
    ensures s != "" ==> TextBytes(gbk, s, false) == TextBytes(gbk, s, true) + [0x0A]
  {
  }

  /**
   * What `setLineheight(num)` writes: `ESC 3 n` with n the low 8 bits of a
   * non-zero num (0 for a negative one), and LINE_HEIGHT for 0 or no num.
   */
  function LineHeightBytes(num: int): seq<byte> {
    if num != 0 then [0x1B, 0x33, LowByte(num)] else Cmd(LineHeight)
  }

  /** The line height is one byte after `ESC 3`: 0x26 for 0, num mod 256 when positive, 0 when negative. */
  lemma LineHeightField(num: int)
    ensures var r := LineHeightBytes(num);
      |r| == 3 && r[0] == 0x1B && r[1] == 0x33 &&
      (num == 0 ==> r[2] == 0x26) &&
      (0 < num < 256 ==> r[2] == num) &&
      (num >= 256 ==> r[2] == num % 256) &&
      (num < 0 ==> r[2] == 0)
  {
    LineHeightCommand();
  }

  /** The dynamic line height and LINE_HEIGHT share the `ESC 3` opcode. */
  lemma LineHeightOpcode(num: int)
    ensures LineHeightBytes(num)[..2] == Cmd(LineHeight)[..2]
  {
    LineHeightCommand();
  }

  // ---------------------------------------------------------------------
  // setAlign, setFont, setStyle
  // ---------------------------------------------------------------------

  /** The alignment `setAlign(align)` selects: L, C or R in either case, and nothing otherwise. */
  function AlignBytes(align: string): seq<byte> {
    if align == "L" || align == "l" then [0x1B, 0x61, 0x00]
    else if align == "C" || align == "c" then [0x1B, 0x61, 0x01]
    else if align == "R" || align == "r" then [0x1B, 0x61, 0x02]
    else []
  }

  /** The alignment a key suffix selects: only the upper-case L, C and R name an entry. */
  function AlignCommand(u: string): seq<byte> {
    if u == "L" then [0x1B, 0x61, 0x00]
    else if u == "C" then [0x1B, 0x61, 0x01]
    else if u == "R" then [0x1B, 0x61, 0x02]
    else []
  }

  /** `_writeCmd('TXT_ALIGN_' + u)` writes AlignCommand(u). */
  lemma AlignWrite(u: string)
    ensures WriteCmdBytes("TXT_ALIGN_" + u) == AlignCommand(u)
  {
    var k := "TXT_ALIGN_" + u;
    AlignKey(u);
    AlignCommands();
    if u == "L" {
      WriteCmdStored(k, TxtAlignL);
    } else if u == "C" {
      WriteCmdStored(k, TxtAlignC);
    } else if u == "R" {
      WriteCmdStored(k, TxtAlignR);
    } else {
      WriteCmdSkips(k);
    }
  }

  /** Upper-casing first makes the lower-case letters select the same alignment. */
  lemma AlignCase(align: string)
    ensures AlignCommand(ToUpper(align)) == AlignBytes(align)
  {
    ToUpperIsLetter(align, 'L');
    ToUpperIsLetter(align, 'C');
    ToUpperIsLetter(align, 'R');
  }

  /** `_writeCmd('TXT_ALIGN_' + align.toUpperCase())` writes exactly AlignBytes(align). */
  lemma AlignLetters(align: string)
    ensures WriteCmdBytes("TXT_ALIGN_" + ToUpper(align)) == AlignBytes(align)
  {
    AlignWrite(ToUpper(align));
    AlignCase(align);
  }

  /** The font `setFont(family)` selects: A to D in either case, and nothing otherwise. */
  function FontBytes(family: string): seq<byte> {
    if family == "A" || family == "a" then [0x1B, 0x4D, 0x00]
    else if family == "B" || family == "b" then [0x1B, 0x4D, 0x01]
    else if family == "C" || family == "c" then [0x1B, 0x4D, 0x02]
    else if family == "D" || family == "d" then [0x1B, 0x4D, 0x03]
    else []
  }

  /** The font a key suffix selects: only the upper-case A to D name an entry. */
  function FontCommand(u: string): seq<byte> {
    if u == "A" then [0x1B, 0x4D, 0x00]
    else if u == "B" then [0x1B, 0x4D, 0x01]
    else if u == "C" then [0x1B, 0x4D, 0x02]
    else if u == "D" then [0x1B, 0x4D, 0x03]
    else []
  }

  /** `_writeCmd('TXT_FONT_' + u)` writes FontCommand(u). */
  lemma FontWrite(u: string)
    ensures WriteCmdBytes("TXT_FONT_" + u) == FontCommand(u)
  {
    var k := "TXT_FONT_" + u;
    FontKey(u);
    FontCommands();
    if u == "A" {
      WriteCmdStored(k, TxtFontA);
    } else if u == "B" {
      WriteCmdStored(k, TxtFontB);
    } else if u == "C" {
      WriteCmdStored(k, TxtFontC);
    } else if u == "D" {
      WriteCmdStored(k, TxtFontD);
    } else {
      WriteCmdSkips(k);
    }
  }

  /** Upper-casing first makes the lower-case letters select the same font. */
  lemma FontCase(family: string)
    ensures FontCommand(ToUpper(family)) == FontBytes(family)
  {
    ToUpperIsLetter(family, 'A');
    ToUpperIsLetter(family, 'B');
    ToUpperIsLetter(family, 'C');
    ToUpperIsLetter(family, 'D');
  }

  /** `_writeCmd('TXT_FONT_' + family.toUpperCase())` writes exactly FontBytes(family). */
  lemma FontLetters(family: string)
    ensures WriteCmdBytes("TXT_FONT_" + ToUpper(family)) == FontBytes(family)
  {
    FontWrite(ToUpper(family));
    FontCase(family);
  }

  /** What `setStyle(type)` writes: bold on for `B` or `b`, bold off for anything else, none included. */
  function StyleBytes(kind: string): seq<byte> {
    if kind == "B" || kind == "b" then [0x1B, 0x45, 0x01] else [0x1B, 0x45, 0x00]
  }

  /** `(type || 'normal').toUpperCase()` is `B` exactly for `B` and `b`. */
  lemma StyleBold(kind: string)
    ensures ToUpper(if kind == "" then "normal" else kind) == "B" <==> kind == "B" || kind == "b"
  {
    ToUpperIsLetter(if kind == "" then "normal" else kind, 'B');
  }

  /** The bold entries are `ESC E 1` and `ESC E 0`. */
  lemma StyleCommands()
    ensures Cmd(TxtBoldOn) == [0x1B, 0x45, 0x01]
    ensures Cmd(TxtBoldOff) == [0x1B, 0x45, 0x00]
  {
  }

  // ---------------------------------------------------------------------
  // `new Buffer(cmds[name] + text)`
  // ---------------------------------------------------------------------

  /**
   * An entry with some text after it, as one string, encodes to the entry's
   * bytes followed by the UTF-8 bytes of the text.
   */
  lemma EntryThenText(n: Name, suffix: string)
    ensures Utf8(EntryText(n) + suffix) == Cmd(n) + Utf8(suffix)
  {
    CmdIsUtf8(n);
    Utf8Append(EntryText(n), suffix);
  }

  /** Builds `new Buffer(cmds[name] + suffix)`. */
  method EntryBuffer(n: Name, suffix: string) returns (b: seq<byte>)
    ensures b == Cmd(n) + Utf8(suffix)
  {
    EntryThenText(n, suffix);
    b := Utf8(EntryText(n) + suffix);
  }

  // ---------------------------------------------------------------------
  // setSize
  // ---------------------------------------------------------------------

  /**
   * What `setSize` writes for the value `parseInt(size)`: TXT_NORMAL and
   * LINE_HEIGHT, then for 2 the line height 58 and `TXT_SIZE + '\x11'`, for
   * 3 the line height 70 and `TXT_SIZE + '\x22'`.
   */
  function SizeBytes(size: int): seq<byte> {
    Cmd(TxtNormal) + Cmd(LineHeight) + SizeSelect(size)
  }

  /** The part of SizeBytes that depends on the size. */
  function SizeSelect(size: int): seq<byte> {
    if size == 2 then LineHeightBytes(58) + (Cmd(TxtSize) + Utf8("\U{11}"))
    else if size == 3 then LineHeightBytes(70) + (Cmd(TxtSize) + Utf8("\U{22}"))
    else []
  }

  /**
   * Every size starts with `GS ! 0` and the default line height; 2 then
   * sets line height 58 and double width and height, 3 line height 70 and
   * triple width and height, and any other size adds nothing.
   */
  lemma SizeCommands(size: int)
    ensures var r := SizeBytes(size);
      |r| >= 6 && r[..6] == [0x1D, 0x21, 0x00, 0x1B, 0x33, 0x26] &&
      (size == 2 ==> r[6..] == [0x1B, 0x33, 0x3A, 0x1D, 0x21, 0x11]) &&
      (size == 3 ==> r[6..] == [0x1B, 0x33, 0x46, 0x1D, 0x21, 0x22]) &&
      (size != 2 && size != 3 ==> |r| == 6)
  {
    LineHeightCommand();
    SizeChoices();
    var head := Cmd(TxtNormal) + Cmd(LineHeight);
    assert head == [0x1D, 0x21, 0x00, 0x1B, 0x33, 0x26];
    assert SizeBytes(size) == head + SizeSelect(size);
  }

  /** The size-dependent bytes for sizes 2 and 3. */
  lemma SizeChoices()
    ensures SizeSelect(2) == [0x1B, 0x33, 0x3A, 0x1D, 0x21, 0x11]
    ensures SizeSelect(3) == [0x1B, 0x33, 0x46, 0x1D, 0x21, 0x22]
  {
    LineHeightField(58);
    LineHeightField(70);
    assert Utf8("\U{11}") == CharUtf8('\U{11}') + Utf8([]) == [0x11];
    assert Utf8("\U{22}") == CharUtf8('\U{22}') + Utf8([]) == [0x22];
  }

  /** Builds what `setLineheight(num)` writes. */
  method LineHeightBuffer(num: int) returns (b: seq<byte>)
    ensures b == LineHeightBytes(num)
  {
    if num != 0 {
      var n := HexBuffer(num);
      b := [0x1B, 0x33, n];
    } else {
      b := Cmd(LineHeight);
    }
  }

  /** Builds the part of `setSize(size)` that depends on the size. */
  method SizeBuffer(size: int) returns (b: seq<byte>)
    ensures b == SizeSelect(size)
  {
    if size == 2 {
      var height := LineHeightBuffer(58);
      var select := EntryBuffer(TxtSize, "\U{11}");
      b := height + select;
    } else if size == 3 {
      var height := LineHeightBuffer(70);
      var select := EntryBuffer(TxtSize, "\U{22}");
      b := height + select;
    } else {
      b := [];
    }
  }

  // ---------------------------------------------------------------------
  // barcode
  // ---------------------------------------------------------------------

  /**
   * What `barcode` writes before the type select: `GS h` with the height
   * byte, `GS w` with the bar-width byte, BARCODE_FONT_A and BARCODE_TXT_BLW.
   */
  function BarcodeSetup(barWidth: byte, height: byte): seq<byte> {
    [0x1D, 0x68, height] + [0x1D, 0x77, barWidth] + Cmd(BarcodeFontA) + Cmd(BarcodeTxtBlw)
  }

  /** `new Buffer([code.length + 2])`: the length kept to its low 8 bits. */
  function Code128Length(code: string): byte {
    (Utf16Length(code) + 2) % 256
  }

  /**
   * What `barcode` writes after the type select: for CODE128 the length byte
   * and the `{B` code-set selector, then the UTF-8 bytes of the code.
   */
  function BarcodeData(code: string, kind: string): seq<byte> {
    (if kind == "CODE128" then [Code128Length(code)] + [0x7B, 0x42] else []) + Utf8(code)
  }

  /**
   * What `barcode(code, type, barWidth, height)` writes, given the bytes that
   * `new Buffer(['0x' + n.toString(16)])` makes of barWidth and height: the
   * setup, the entry named `BARCODE_` + type if there is one, and the data.
   */
  function BarcodeBytes(code: string, kind: string, barWidth: byte, height: byte): seq<byte> {
    BarcodeSetup(barWidth, height) + WriteCmdBytes("BARCODE_" + kind) + BarcodeData(code, kind)
  }

  /** The first 12 bytes of every barcode: height, width, font A, text below. */
  lemma BarcodeHeader(code: string, kind: string, barWidth: byte, height: byte)
    ensures |BarcodeBytes(code, kind, barWidth, height)| >= 12
    ensures BarcodeBytes(code, kind, barWidth, height)[..12] ==
      [0x1D, 0x68, height, 0x1D, 0x77, barWidth, 0x1D, 0x66, 0x00, 0x1D, 0x48, 0x02]
  {
    var setup := BarcodeSetup(barWidth, height);
    BarcodeSetupBytes(barWidth, height);
    assert BarcodeBytes(code, kind, barWidth, height)[..12] == setup;
  }

  /** The setup is twelve bytes: `GS h` height, `GS w` bar width, `GS f 0` and `GS H 2`. */
  lemma BarcodeSetupBytes(barWidth: byte, height: byte)
    ensures BarcodeSetup(barWidth, height) ==
      [0x1D, 0x68, height, 0x1D, 0x77, barWidth, 0x1D, 0x66, 0x00, 0x1D, 0x48, 0x02]
  {
  }

  /** Nothing follows the code: the bytes end with the UTF-8 image of the code. */
  lemma BarcodeEndsWithCode(code: string, kind: string, barWidth: byte, height: byte)
    ensures var r := BarcodeBytes(code, kind, barWidth, height);
      |r| >= |Utf8(code)| && r[|r| - |Utf8(code)|..] == Utf8(code)
  {
  }

  /** A type the table has no `BARCODE_` entry for adds no type select. */
  lemma BarcodeUnknownType(code: string, kind: string, barWidth: byte, height: byte)
    requires Lookup("BARCODE_" + kind).None?
    ensures BarcodeBytes(code, kind, barWidth, height) ==
      BarcodeSetup(barWidth, height) + BarcodeData(code, kind)
  {
    WriteCmdSkips("BARCODE_" + kind);
  }

  /**
   * For CODE128 with an ASCII code shorter than 254 characters the type
   * select `GS k 73` is followed by a length byte that counts exactly the
   * bytes after it: the `{B` selector and the code.
   */
  lemma Code128LengthByte(code: string, barWidth: byte, height: byte)
    requires IsAscii(code) && |code| + 2 < 256
    ensures var r := BarcodeBytes(code, "CODE128", barWidth, height);
      |r| == 18 + |code| &&
      r[12..15] == [0x1D, 0x6B, 0x49] &&
      r[15] as int == |r| - 16 &&
      r[16..18] == [0x7B, 0x42] &&
      r[18..] == Utf8(code)
  {
    Code128Bytes(code, barWidth, height);
    BarcodeSetupBytes(barWidth, height);
    Code128Layout(BarcodeSetup(barWidth, height), Utf8(code), (|code| + 2) as byte);
  }

  /** The bytes of a CODE128 barcode of an ASCII code, piece by piece. */
  lemma Code128Bytes(code: string, barWidth: byte, height: byte)
    requires IsAscii(code) && |code| + 2 < 256
    ensures |Utf8(code)| == |code|
    ensures BarcodeBytes(code, "CODE128", barWidth, height) ==
      BarcodeSetup(barWidth, height) + [0x1D, 0x6B, 0x49] + ([(|code| + 2) as byte, 0x7B, 0x42] + Utf8(code))
  {
    Code128Select();
    Code128Data(code);
  }

  /** Where the pieces of a CODE128 barcode sit, whatever its setup and data. */
  lemma Code128Layout(setup: seq<byte>, data: seq<byte>, len: byte)
    requires |setup| == 12
    ensures var r := setup + [0x1D, 0x6B, 0x49] + ([len, 0x7B, 0x42] + data);
      |r| == 18 + |data| &&
      r[12..15] == [0x1D, 0x6B, 0x49] &&
      r[15] == len &&
      r[16..18] == [0x7B, 0x42] &&
      r[18..] == data
  {
  }

  /** The type select of CODE128 is `GS k 73`. */
  lemma Code128Select()
    ensures WriteCmdBytes("BARCODE_" + "CODE128") == [0x1D, 0x6B, 0x49]
  {
    SymbologyKey(8);
    SymbologyCommand(8);
    assert Symbologies[8] == "CODE128";
    WriteCmdStored("BARCODE_" + "CODE128", BarcodeCode128);
  }

  /** The CODE128 data of an ASCII code: its length plus 2, `{B`, and the code byte for character. */
  lemma Code128Data(code: string)
    requires IsAscii(code) && |code| + 2 < 256
    ensures BarcodeData(code, "CODE128") == [(|code| + 2) as byte, 0x7B, 0x42] + Utf8(code)
    ensures |Utf8(code)| == |code|
  {
    Utf16LengthOfAscii(code);
  }

  // ---------------------------------------------------------------------
  // qrcode
  // ---------------------------------------------------------------------

  /** A character of the class `[\w\:\/\.\_\-\?\&\=]`. */
  predicate QrChar(c: char) {
    ('A' <= c <= 'Z') || ('a' <= c <= 'z') || ('0' <= c <= '9') ||
    c == '_' || c == ':' || c == '/' || c == '.' || c == '-' || c == '?' || c == '&' || c == '='
  }

  /** `/^[\w\:\/\.\_\-\?\&\=]+$/.test(text)`: one or more characters of the class. */
  predicate QrText(text: string) {
    |text| > 0 && forall i :: 0 <= i < |text| ==> QrChar(text[i])
  }

  /** The message `qrcode` prints instead of a QR code it cannot encode. */
  const QrRefusal: string :=
    "\U{4E8C}\U{7EF4}\U{7801}\U{8BF7}\U{4F7F}\U{7528}\U{82F1}\U{6587}\U{548C}\U{6570}\U{5B57}\U{6253}\U{5370}"

  /** The module size `qrcode` uses: the one given, 8 when none (or 0) is. */
  function QrSize(size: int): int {
    if size == 0 then 8 else size
  }

  /**
   * The QR commands before the length field: QRCODE_SIZE with the size byte,
   * QRCODE_ERROR, and QRCODE_AREA_LSB, the `GS ( k` of the store command.
   */
  function QrHead(size: byte): seq<byte> {
    Cmd(QrcodeSize) + [size] + Cmd(QrcodeError) + Cmd(QrcodeAreaLsb)
  }

  /** The store-data block the length field counts: QRCODE_AREA_MSB and the text. */
  function QrBlock(text: string): seq<byte> {
    Cmd(QrcodeAreaMsb) + Utf8(text)
  }

  /**
   * The QR code `qrcode` writes for accepted text, given the size byte and
   * the length field `pL pH`: the head, the length field, the block and
   * QRCODE_PRINT.
   */
  function QrSymbol(text: string, size: byte, pL: byte, pH: byte): seq<byte> {
    QrHead(size) + [pL, pH] + QrBlock(text) + Cmd(QrcodePrint)
  }

  /**
   * What `qrcode(text, size)` writes: for text outside the class only the
   * refusal message as text; otherwise the QR code, with the size and the
   * length `text.length + 3` of the block as `new Buffer(['0x' + …])` holds
   * them: size, `len % 256` and `parseInt(len / 256)` to their low 8 bits.
   * Accepted text is ASCII, so its `length` is `|text|` (QrTextLength).
   */
  function QrBytes(gbk: string -> seq<byte>, text: string, size: int): seq<byte> {
    if !QrText(text) then TextBytes(gbk, QrRefusal, false)
    else
      var len := |text| + 3;
      QrSymbol(text, LowByte(QrSize(size)), LowByte(len % 256), LowByte(len / 256))
  }

  /**
   * The buffers `qrcode(text, size)` builds: for text outside the class what
   * `text(message)` writes (TextBytes, the contract of Printer.Text);
   * otherwise the commands with the size and the two halves of
   * `len = text.length + 3`, each written as `'0x' + n.toString(16)`.
   */
  method QrBuffer(gbk: string -> seq<byte>, text: string, size: int) returns (b: seq<byte>)
    ensures b == QrBytes(gbk, text, size)
  {
    if !QrText(text) {
      b := TextBytes(gbk, QrRefusal, false);
    } else {
      var len := Utf16Length(text) + 3;
      QrTextLength(text);
      var s := HexBuffer(QrSize(size));
      var pL := HexBuffer(len % 256);
      var pH := HexBuffer(len / 256);
      b := QrSymbol(text, s, pL, pH);
    }
  }

  /** Text the pattern accepts is ASCII. */
  lemma QrTextIsAscii(text: string)
    requires QrText(text)
    ensures IsAscii(text)
  {
  }

  /** On text the pattern accepts, `text.length` counts characters, and so UTF-8 bytes. */
  lemma QrTextLength(text: string)
    requires QrText(text)
    ensures Utf16Length(text) == |text| == |Utf8(text)|
  {
    QrTextIsAscii(text);
    Utf16LengthOfAscii(text);
  }

  /** Text the pattern refuses gets the message and a line feed, nothing of a QR code. */
  lemma QrRefused(gbk: string -> seq<byte>, text: string, size: int)
    requires !QrText(text)
    ensures QrBytes(gbk, text, size) == gbk(QrRefusal) + [0x0A]
  {
  }

  /** The head is 19 bytes, the size byte the eighth of them. */
  lemma QrHeadBytes(size: byte)
    ensures QrHead(size) == [0x1D, 0x28, 0x6B, 0x03, 0x00, 0x31, 0x43, size,
                             0x1D, 0x28, 0x6B, 0x03, 0x00, 0x31, 0x45, 0x31,
                             0x1D, 0x28, 0x6B]
  {
  }

  /**
   * Where the fields of a QR code lie: the size byte at 7, the length field
   * at 19 and 20, then the store-data block, and QRCODE_PRINT in the last
   * 8 bytes.
   */
  lemma QrSymbolLayout(text: string, size: byte, pL: byte, pH: byte)
    ensures var r := QrSymbol(text, size, pL, pH);
      |r| == 29 + |QrBlock(text)| &&
      r[7] == size && r[19] == pL && r[20] == pH &&
      r[21..|r| - 8] == QrBlock(text) &&
      r[|r| - 8..] == Cmd(QrcodePrint)
  {
    QrCommandBytes();
    var sized := Cmd(QrcodeSize) + [size];
    assert |sized| == 8 && sized[7] == size;
    var head := sized + Cmd(QrcodeError) + Cmd(QrcodeAreaLsb);
    assert |head| == 19 && head[7] == size;
    var prefix := head + [pL, pH];
    assert |prefix| == 21 && prefix[7] == size && prefix[19] == pL && prefix[20] == pH;
    var block := QrBlock(text);
    var tail := Cmd(QrcodePrint);
    assert |tail| == 8;
    var r := QrSymbol(text, size, pL, pH);
    assert r == prefix + block + tail;
    assert r[21..|r| - 8] == block;
    assert r[|r| - 8..] == tail;
  }

  /**
   * The size byte is the size `qrcode` was given when that fits a byte, and
   * the length field `len % 256, len / 256` spells out any len below 65536.
   */
  lemma QrFields(size: int, len: int)
    requires 0 <= size < 256 && 0 <= len < 0x1_0000
    ensures LowByte(QrSize(size)) == QrSize(size)
    ensures LowByte(len % 256) as int + 256 * LowByte(len / 256) as int == len
  {
  }

  /**
   * For accepted text of fewer than 65533 characters, `pL + 256 * pH` is the
   * number of bytes of the store-data block that follows the length field,
   * up to QRCODE_PRINT. The size byte is the given size, 8 by default.
   */
  lemma QrStoreLength(gbk: string -> seq<byte>, text: string, size: int)
    requires QrText(text) && |text| + 3 < 0x1_0000
    requires 0 <= size < 256
    ensures var r := QrBytes(gbk, text, size);
      |r| == 32 + |text| &&
      r[7] == QrSize(size) &&
      r[19] as int + 256 * r[20] as int == |r[21..|r| - 8]| &&
      r[21..|r| - 8] == QrBlock(text) &&
      r[|r| - 8..] == Cmd(QrcodePrint)
  {
    QrTextLength(text);
    var len := |text| + 3;
    QrFields(size, len);
    var r := QrSymbol(text, LowByte(QrSize(size)), LowByte(len % 256), LowByte(len / 256));
    QrSymbolLayout(text, LowByte(QrSize(size)), LowByte(len % 256), LowByte(len / 256));
    assert QrBytes(gbk, text, size) == r;
    assert |QrBlock(text)| == len;
  }

  // ---------------------------------------------------------------------
  // openCashbox, beep, print
  // ---------------------------------------------------------------------

  /**
   * What `openCashbox` writes: CASHBOX_OPEN, whose two 0xFF characters
   * `new Buffer` turns into `C3 BF` each, then INITIAL_PRINTER.
   */
  function DrawerBytes(): (r: seq<byte>)
    ensures r == [0x1B, 0x70, 0x00, 0xC3, 0xBF, 0xC3, 0xBF, 0x1B, 0x40]
  {
    Cmd(CashboxOpen) + Cmd(InitialPrinter)
  }

  /** The beep count `beep` uses: the one given, `\x09` when none is. */
  function BeepTimes(times: string): string {
    if times == "" then "\U{9}" else times
  }

  /** The beep interval `beep` uses: the one given, `\x01` when none is. */
  function BeepInterval(interval: string): string {
    if interval == "" then "\U{1}" else interval
  }

  /** What `beep(times, interval)` writes: `new Buffer(BEEP + times + interval)`. */
  function BeepBytes(times: string, interval: string): seq<byte> {
    Cmd(Beep) + Utf8(BeepTimes(times) + BeepInterval(interval))
  }

  /** The beep is `ESC B` followed by the UTF-8 bytes of the count and then of the interval. */
  lemma BeepFields(times: string, interval: string)
    ensures BeepBytes(times, interval) ==
      [0x1B, 0x42] + Utf8(BeepTimes(times)) + Utf8(BeepInterval(interval))
  {
    Utf8Append(BeepTimes(times), BeepInterval(interval));
  }

  /** With no arguments `beep` sounds 9 times at 50 ms: `ESC B 9 1`. */
  lemma BeepDefaults()
    ensures BeepBytes("", "") == [0x1B, 0x42, 0x09, 0x01]
  {
    BeepFields("", "");
    assert Utf8("\U{9}") == CharUtf8('\U{9}') + Utf8([]) == [0x09];
    assert Utf8("\U{1}") == CharUtf8('\U{1}') + Utf8([]) == [0x01];
  }

  /** What `print` adds before sending: FOOT_LINE, PAPER_CUTTING and INITIAL_PRINTER. */
  function FooterBytes(): (r: seq<byte>)
    ensures r == [0x1B, 0x64, 0x04, 0x1D, 0x56, 0x41, 0x1B, 0x40]
  {
    Cmd(FootLine) + Cmd(PaperCutting) + Cmd(InitialPrinter)
  }

  /** What the constructor queues: INITIAL_PRINTER, CHN_TEXT and LINE_HEIGHT. */
  function SetupBytes(): seq<byte> {
    Cmd(InitialPrinter) + Cmd(ChnText) + Cmd(LineHeight)
  }

  /** The constructor queues `ESC @`, `ESC R 15` and `ESC 3 38`. */
  lemma SetupCommands()
    ensures SetupBytes() == [0x1B, 0x40, 0x1B, 0x52, 0x0F, 0x1B, 0x33, 0x26]
  {
  }

  // ---------------------------------------------------------------------
  // Writing several pieces one after another
  // ---------------------------------------------------------------------

  /** Appending three pieces one after another appends them together. */
  lemma AppendThree(b: seq<byte>, x: seq<byte>, y: seq<byte>, z: seq<byte>)
    ensures b + x + y + z == b + (x + y + z)
  {
  }

  // ---------------------------------------------------------------------
  // The builder
  // ---------------------------------------------------------------------

  /**
   * A printer job. `buf` is the queue (`_queue`), `msg` the status message,
   * and `jobs` the data each `sendCmd` has handed to the spooler. A printer
   * the constructor could not find has no queue (`ready` is false): it
   * accepts only the calls that never reach the queue, which write nothing.
   */
  class Printer {
    /** The printer's name: the one given, or the system default when none is. */
    const name: string
    /** Whether the printer was found and the queue set up. */
    const ready: bool
    /** The GBK encoder that `text` uses. */
    const gbk: string -> seq<byte>
    var msg: Option<string>
    var buf: seq<byte>
    var jobs: seq<seq<byte>>

    /**
     * `new printer(callback, printerName)` where `installed` are the printers
     * the spooler knows and `defaultName` is its default printer.
     */
    constructor (printerName: string, defaultName: string, installed: set<string>,
                 gbk: string -> seq<byte>)
      ensures name == (if printerName == "" then defaultName else printerName)
      ensures ready <==> name in installed
      ensures ready ==> msg == Some("Get printer success") && buf == SetupBytes()
      ensures !ready ==> msg == None && buf == []
      ensures this.gbk == gbk
      ensures jobs == []
    {
      name := if printerName == "" then defaultName else printerName;
      var found := (if printerName == "" then defaultName else printerName) in installed;
      ready := found;
      this.gbk := gbk;
      msg := None;
      buf := [];
      jobs := [];
      new;
      if found {
        msg := Some("Get printer success");
        WriteEntry(InitialPrinter);
        WriteEntry(ChnText);
        WriteEntry(LineHeight);
      }
    }

    /**
     * `_writeCmd(key)` for a key held in a variable: the entry's bytes when
     * the table has one under key, nothing otherwise.
     */
    method WriteCmd(key: string)
      requires ready || WriteCmdBytes(key) == []
      modifies this
      ensures buf == old(buf) + WriteCmdBytes(key)
      ensures Lookup(key).None? <==> buf == old(buf)
      ensures msg == old(msg) && jobs == old(jobs)
    {
      WriteCmdSkips(key);
      match Lookup(key)
      case Some(n) =>
        if Entry(n) != [] {
          buf := buf + Cmd(n);
        }
      case None =>
    }

    /**
     * `_writeCmd(key)` or `_queue.concat(new Buffer(cmds[key]))` for a
     * literal key, the one that names entry n: no entry is empty, so its
     * bytes are always written.
     */
    method WriteEntry(n: Name)
      requires ready
      modifies this
      ensures buf == old(buf) + Cmd(n)
      ensures msg == old(msg) && jobs == old(jobs)
    {
      buf := buf + Cmd(n);
    }

    /** `text(s, inline)`. */
    method Text(s: string, inline: bool)
      requires ready || s == ""
      modifies this
      ensures buf == old(buf) + TextBytes(gbk, s, inline)
      ensures msg == old(msg) && jobs == old(jobs)
    {
      if s != "" {
        buf := buf + gbk(s);
        if !inline {
          WriteEntry(NewLine);
        }
      }
    }

    /** `line(str, length)`: left alignment, then str repeated length times (32 for 0) as a line. */
    method Line(str: string, length: int)
      requires ready
      modifies this
      ensures var count := if length == 0 then 32 else length;
        buf == old(buf) + [0x1B, 0x61, 0x00] + TextBytes(gbk, Repeat(str, Times(count)), false)
      ensures msg == old(msg) && jobs == old(jobs)
    {
      var txt := "";
      SetAlign("L");
      var count := if length == 0 then 32 else length;
      var i := 0;
      while i < count
        invariant 0 <= i <= Times(count)
        invariant txt == Repeat(str, i)
      {
        txt := txt + str;
        i := i + 1;
      }
      Text(txt, false);
    }

    /**
     * `blank(number)`: left alignment, line height 14, number line feeds
     * (one for 0), and the default line height again.
     */
    method Blank(number: int)
      requires ready
      modifies this
      ensures var count := if number == 0 then 1 else number;
        buf == old(buf) + [0x1B, 0x61, 0x00] + [0x1B, 0x33, 0x0E] +
          Repeat([0x0A], Times(count)) + [0x1B, 0x33, 0x26]
      ensures msg == old(msg) && jobs == old(jobs)
    {
      SetAlign("L");
      var count := if number == 0 then 1 else number;
      SetLineheight(14);
      ghost var start := buf;
      var i := 0;
      while i < count
        invariant 0 <= i <= Times(count)
        invariant buf == start + Repeat([0x0A], i)
        invariant msg == old(msg) && jobs == old(jobs)
      {
        WriteEntry(NewLine);
        i := i + 1;
      }
      SetLineheight(0);
      LineHeightField(14);
      LineHeightField(0);
    }

    /** `setAlign(align)`. */
    method SetAlign(align: string)
      requires ready || AlignBytes(align) == []
      modifies this
      ensures buf == old(buf) + AlignBytes(align)
      ensures msg == old(msg) && jobs == old(jobs)
    {
      AlignLetters(align);
      WriteCmd("TXT_ALIGN_" + ToUpper(align));
    }

    /** `setFont(family)`. */
    method SetFont(family: string)
      requires ready || FontBytes(family) == []
      modifies this
      ensures buf == old(buf) + FontBytes(family)
      ensures msg == old(msg) && jobs == old(jobs)
    {
      FontLetters(family);
      WriteCmd("TXT_FONT_" + ToUpper(family));
    }

    /** `setLineheight(num)`, with 0 standing for no argument. */
    method SetLineheight(num: int)
      requires ready
      modifies this
      ensures buf == old(buf) + LineHeightBytes(num)
      ensures msg == old(msg) && jobs == old(jobs)
    {
      var b := LineHeightBuffer(num);
      buf := buf + b;
    }

    /** `setStyle(type)`, with the empty string standing for no argument. */
    method SetStyle(kind: string)
      requires ready
      modifies this
      ensures buf == old(buf) + StyleBytes(kind)
      ensures msg == old(msg) && jobs == old(jobs)
    {
      var t := if kind == "" then "normal" else kind;
      StyleBold(kind);
      StyleCommands();
      if ToUpper(t) == "B" {
        WriteEntry(TxtBoldOn);
      } else {
        WriteEntry(TxtBoldOff);
      }
    }

    /** `setSize(size)`, given the value of `parseInt(size)`. */
    method SetSize(size: int)
      requires ready
      modifies this
      ensures buf == old(buf) + SizeBytes(size)
      ensures msg == old(msg) && jobs == old(jobs)
    {
      WriteEntry(TxtNormal);
      WriteEntry(LineHeight);
      var b := SizeBuffer(size);
      buf := buf + b;
      AppendThree(old(buf), Cmd(TxtNormal), Cmd(LineHeight), SizeSelect(size));
    }

    /** `barcode(code, type, barWidth, height)`. */
    method Barcode(code: string, kind: string, barWidth: int, height: int)
      requires ready
      modifies this
      ensures buf == old(buf) + BarcodeBytes(code, kind, LowByte(barWidth), LowByte(height))
      ensures msg == old(msg) && jobs == old(jobs)
    {
      var w := HexBuffer(barWidth);
      var h := HexBuffer(height);
      buf := buf + BarcodeSetup(w, h);
      WriteCmd("BARCODE_" + kind);
      buf := buf + BarcodeData(code, kind);
      AppendThree(old(buf), BarcodeSetup(w, h), WriteCmdBytes("BARCODE_" + kind), BarcodeData(code, kind));
    }

    /** `qrcode(text, size)`, with 0 standing for no size. */
    method Qrcode(text: string, size: int)
      requires ready
      modifies this
      ensures buf == old(buf) + QrBytes(gbk, text, size)
      ensures msg == old(msg) && jobs == old(jobs)
    {
      var b := QrBuffer(gbk, text, size);
      buf := buf + b;
    }

    /** `openCashbox()`. */
    method OpenCashbox()
      requires ready
      modifies this
      ensures buf == old(buf) + DrawerBytes()
      ensures msg == old(msg) && jobs == old(jobs)
    {
      WriteEntry(CashboxOpen);
      WriteEntry(InitialPrinter);
    }

    /** `beep(times, interval)`, with the empty string standing for an omitted argument. */
    method Beep(times: string, interval: string)
      requires ready
      modifies this
      ensures buf == old(buf) + BeepBytes(times, interval)
      ensures msg == old(msg) && jobs == old(jobs)
    {
      var b := EntryBuffer(Commands.Beep, BeepTimes(times) + BeepInterval(interval));
      buf := buf + b;
    }

    /**
     * `sendCmd`: the queue goes to the spooler; when it is accepted the
     * message is `Print Success`, the callback is called and only then is
     * the queue emptied, so an accepted job without a callback stops at the
     * call and keeps its queue; when it is refused the message is
     * `Print Failed` and the queue is kept.
     */
    method SendCmd(accepted: bool, hasCallback: bool)
      requires ready
      modifies this
      ensures jobs == old(jobs) + [old(buf)]
      ensures accepted ==> msg == Some("Print Success")
      ensures accepted && hasCallback ==> buf == []
      ensures accepted && !hasCallback ==> buf == old(buf)
      ensures !accepted ==> msg == Some("Print Failed") && buf == old(buf)
    {
      jobs := jobs + [buf];
      if accepted {
        msg := Some("Print Success");
        if hasCallback {
          buf := [];
        }
      } else {
        msg := Some("Print Failed");
      }
    }

    /** `print`: the footer, then `sendCmd`. */
    method Print(accepted: bool, hasCallback: bool)
      requires ready
      modifies this
      ensures jobs == old(jobs) + [old(buf) + FooterBytes()]
      ensures accepted ==> msg == Some("Print Success")
      ensures accepted && hasCallback ==> buf == []
      ensures accepted && !hasCallback ==> buf == old(buf) + FooterBytes()
      ensures !accepted ==> msg == Some("Print Failed") && buf == old(buf) + FooterBytes()
    {
      WriteEntry(FootLine);
      WriteEntry(PaperCutting);
      WriteEntry(InitialPrinter);
      assert buf == old(buf) + FooterBytes();
      SendCmd(accepted, hasCallback);
    }

    /** `empty()`. */
    method Empty()
      requires ready
      modifies this
      ensures buf == []
      ensures msg == old(msg) && jobs == old(jobs)
    {
      buf := [];
    }
  }
}
