/**
 * The ESC/POS command table of lib/commands.js: a constant object that maps
 * command names to JavaScript strings. Each character of an entry stands
 * for one byte of the command, but the builder turns entries into bytes
 * with `new Buffer(string)`, which is UTF-8; for every entry except
 * CASHBOX_OPEN that is the identity.
 */
module Commands {
  import opened JsRuntime

  /** The properties of the command object, in the order they are written. */
  datatype Name =
    InitialPrinter
    | NewLine
    | FootLine
    | PaperCutting
    | LineHeight
    | LineHeightB
    | ChnText
    | TxtNormal
    | TxtSize
    | TxtBoldOff
    | TxtBoldOn
    | TxtAlignL
    | TxtAlignC
    | TxtAlignR
    | TxtFontA
    | TxtFontB
    | TxtFontC
    | TxtFontD
    | BarcodeTxtOff
    | BarcodeTxtAbv
    | BarcodeTxtBlw
    | BarcodeTxtBth
    | BarcodeFontA
    | BarcodeFontB
    | BarcodeHeight
    | BarcodeWidth
    | BarcodeUpcA
    | BarcodeUpcE
    | BarcodeEan13
    | BarcodeEan8
    | BarcodeCode39
    | BarcodeItf
    | BarcodeNw7
    | BarcodeCode93
    | BarcodeCode128
    | QrcodeSizeModal
    | QrcodeSize
    | QrcodeError
    | QrcodeAreaLsb
    | QrcodeAreaMsb
    | QrcodePrint
    | CashboxOpen
    | Beep

  /** The property names of the object, each with the entry it names. */
  const Keys: map<string, Name> := map[
    "INITIAL_PRINTER" := InitialPrinter,
    "NEW_LINE" := NewLine,
    "FOOT_LINE" := FootLine,
    "PAPER_CUTTING" := PaperCutting,
    "LINE_HEIGHT" := LineHeight,
    "LINE_HEIGHT_B" := LineHeightB,
    "CHN_TEXT" := ChnText,
    "TXT_NORMAL" := TxtNormal,
    "TXT_SIZE" := TxtSize,
    "TXT_BOLD_OFF" := TxtBoldOff,
    "TXT_BOLD_ON" := TxtBoldOn,
    "TXT_ALIGN_L" := TxtAlignL,
    "TXT_ALIGN_C" := TxtAlignC,
    "TXT_ALIGN_R" := TxtAlignR,
    "TXT_FONT_A" := TxtFontA,
    "TXT_FONT_B" := TxtFontB,
    "TXT_FONT_C" := TxtFontC,
    "TXT_FONT_D" := TxtFontD,
    "BARCODE_TXT_OFF" := BarcodeTxtOff,
    "BARCODE_TXT_ABV" := BarcodeTxtAbv,
    "BARCODE_TXT_BLW" := BarcodeTxtBlw,
    "BARCODE_TXT_BTH" := BarcodeTxtBth,
    "BARCODE_FONT_A" := BarcodeFontA,
    "BARCODE_FONT_B" := BarcodeFontB,
    "BARCODE_HEIGHT" := BarcodeHeight,
    "BARCODE_WIDTH" := BarcodeWidth,
    "BARCODE_UPC_A" := BarcodeUpcA,
    "BARCODE_UPC_E" := BarcodeUpcE,
    "BARCODE_EAN13" := BarcodeEan13,
    "BARCODE_EAN8" := BarcodeEan8,
    "BARCODE_CODE39" := BarcodeCode39,
    "BARCODE_ITF" := BarcodeItf,
    "BARCODE_NW7" := BarcodeNw7,
    "BARCODE_CODE93" := BarcodeCode93,
    "BARCODE_CODE128" := BarcodeCode128,
    "QRCODE_SIZE_MODAL" := QrcodeSizeModal,
    "QRCODE_SIZE" := QrcodeSize,
    "QRCODE_ERROR" := QrcodeError,
    "QRCODE_AREA_LSB" := QrcodeAreaLsb,
    "QRCODE_AREA_MSB" := QrcodeAreaMsb,
    "QRCODE_PRINT" := QrcodePrint,
    "CASHBOX_OPEN" := CashboxOpen,
    "BEEP" := Beep
  ]

  /**
   * The string stored under an entry, as its UTF-16 code units. Every entry
   * is written with `\x..` escapes only, so every code unit is below 0x100
   * and is given here as the escape's value.
   */
  function Entry(n: Name): (e: seq<byte>)
    ensures e != []
  {
    match n
    case InitialPrinter => [0x1B, 0x40]
    case NewLine => [0x0A]
    case FootLine => [0x1B, 0x64, 0x04]
    case PaperCutting => [0x1D, 0x56, 0x41]
    case LineHeight => [0x1B, 0x33, 0x26]
    case LineHeightB => [0x1B, 0x33, 0x6E]
    case ChnText => [0x1B, 0x52, 0x0F]
    case TxtNormal => [0x1D, 0x21, 0x00]
    case TxtSize => [0x1D, 0x21]
    case TxtBoldOff => [0x1B, 0x45, 0x00]
    case TxtBoldOn => [0x1B, 0x45, 0x01]
    case TxtAlignL => [0x1B, 0x61, 0x00]
    case TxtAlignC => [0x1B, 0x61, 0x01]
    case TxtAlignR => [0x1B, 0x61, 0x02]
    case TxtFontA => [0x1B, 0x4D, 0x00]
    case TxtFontB => [0x1B, 0x4D, 0x01]
    case TxtFontC => [0x1B, 0x4D, 0x02]
    case TxtFontD => [0x1B, 0x4D, 0x03]
    case BarcodeTxtOff => [0x1D, 0x48, 0x00]
    case BarcodeTxtAbv => [0x1D, 0x48, 0x01]
    case BarcodeTxtBlw => [0x1D, 0x48, 0x02]
    case BarcodeTxtBth => [0x1D, 0x48, 0x03]
    case BarcodeFontA => [0x1D, 0x66, 0x00]
    case BarcodeFontB => [0x1D, 0x66, 0x01]
    case BarcodeHeight => [0x1D, 0x68, 0x64]
    case BarcodeWidth => [0x1D, 0x77, 0x02]
    case BarcodeUpcA => [0x1D, 0x6B, 0x00]
    case BarcodeUpcE => [0x1D, 0x6B, 0x01]
    case BarcodeEan13 => [0x1D, 0x6B, 0x02]
    case BarcodeEan8 => [0x1D, 0x6B, 0x03]
    case BarcodeCode39 => [0x1D, 0x6B, 0x04]
    case BarcodeItf => [0x1D, 0x6B, 0x05]
    case BarcodeNw7 => [0x1D, 0x6B, 0x06]
    case BarcodeCode93 => [0x1D, 0x6B, 0x48]
    case BarcodeCode128 => [0x1D, 0x6B, 0x49]
    case QrcodeSizeModal => [0x1D, 0x28, 0x6B, 0x03, 0x00, 0x31, 0x41, 0x32, 0x00]
    case QrcodeSize => [0x1D, 0x28, 0x6B, 0x03, 0x00, 0x31, 0x43]
    case QrcodeError => [0x1D, 0x28, 0x6B, 0x03, 0x00, 0x31, 0x45, 0x31]
    case QrcodeAreaLsb => [0x1D, 0x28, 0x6B]
    case QrcodeAreaMsb => [0x31, 0x50, 0x30]
    case QrcodePrint => [0x1D, 0x28, 0x6B, 0x03, 0x00, 0x31, 0x51, 0x30]
    case CashboxOpen => [0x1B, 0x70, 0x00, 0xFF, 0xFF]
    case Beep => [0x1B, 0x42]
  }

  /** `cmds[key]` as a property access: the entry stored under key, if any. */
  function Lookup(key: string): Option<Name> {
    if key in Keys then Some(Keys[key]) else None
  }

  /** The string of an entry, one character per code unit. */
  function EntryText(n: Name): string {
    Latin1(Entry(n))
  }

  /**
   * `new Buffer(cmds[name])`: the bytes the builder writes for an entry.
   * Every entry but CASHBOX_OPEN is plain ASCII and is written unit for
   * unit; the two 0xFF units of CASHBOX_OPEN are written as `C3 BF` each.
   * CmdIsUtf8 shows that this is the UTF-8 encoding of every entry.
   */
  function Cmd(n: Name): seq<byte> {
    if n == CashboxOpen then [0x1B, 0x70, 0x00, 0xC3, 0xBF, 0xC3, 0xBF] else Entry(n)
  }

  /** Cmd is what `new Buffer` makes of the entry's string. */
  lemma CmdIsUtf8(n: Name)
    ensures Cmd(n) == Utf8(EntryText(n))
  {
    if n == CashboxOpen {
      CashboxBytes();
    } else {
      Latin1Utf8IsUtf8(Entry(n));
      EntryIsAscii(n);
      Latin1Utf8Identity(Entry(n));
    }
  }

  /**
   * What `_writeCmd(key)` appends: the entry's bytes when `cmds[key]` is
   * truthy, and nothing otherwise. No entry is the empty string, so the
   * bytes are written exactly when the key names an entry.
   */
  function WriteCmdBytes(key: string): seq<byte> {
    match Lookup(key)
    case Some(n) => if Entry(n) != [] then Cmd(n) else []
    case None => []
  }

  /** `_writeCmd` writes something exactly when its key is a property of the table. */
  lemma WriteCmdSkips(key: string)
    ensures WriteCmdBytes(key) == [] <==> Lookup(key).None?
  {
  }

  /** `_writeCmd` with a key the table has appends that entry's bytes. */
  lemma WriteCmdStored(key: string, n: Name)
    requires Lookup(key) == Some(n)
    ensures WriteCmdBytes(key) == Cmd(n)
  {
  }

  /** The alignment keys name the alignment entries. */
  lemma AlignKeys()
    ensures Lookup("TXT_ALIGN_L") == Some(TxtAlignL)
    ensures Lookup("TXT_ALIGN_C") == Some(TxtAlignC)
    ensures Lookup("TXT_ALIGN_R") == Some(TxtAlignR)
  {
  }

  /** No other suffix of `TXT_ALIGN_` names a property. */
  lemma AlignKeyOther(u: string)
    requires Lookup("TXT_ALIGN_" + u).Some?
    ensures u == "L" || u == "C" || u == "R"
  {
    var k := "TXT_ALIGN_" + u;
    assert k[10..] == u;
    assert k[4] == 'A';
  }

  /** `cmds['TXT_ALIGN_' + u]` is an entry exactly for u = L, C, R. */
  lemma AlignKey(u: string)
    ensures Lookup("TXT_ALIGN_" + u) ==
      if u == "L" then Some(TxtAlignL)
      else if u == "C" then Some(TxtAlignC)
      else if u == "R" then Some(TxtAlignR)
      else None
  {
    var k := "TXT_ALIGN_" + u;
    AlignKeys();
    if u == "L" {
      assert k == "TXT_ALIGN_L";
    } else if u == "C" {
      assert k == "TXT_ALIGN_C";
    } else if u == "R" {
      assert k == "TXT_ALIGN_R";
    } else if Lookup(k).Some? {
      AlignKeyOther(u);
    }
  }

  /** The alignment entries are `ESC a m` with m = 0, 1, 2 for L, C, R. */
  lemma AlignCommands()
    ensures Cmd(TxtAlignL) == [0x1B, 0x61, 0x00]
    ensures Cmd(TxtAlignC) == [0x1B, 0x61, 0x01]
    ensures Cmd(TxtAlignR) == [0x1B, 0x61, 0x02]
  {
  }

  /** The font keys name the font entries. */
  lemma FontKeys()
    ensures Lookup("TXT_FONT_A") == Some(TxtFontA)
    ensures Lookup("TXT_FONT_B") == Some(TxtFontB)
    ensures Lookup("TXT_FONT_C") == Some(TxtFontC)
    ensures Lookup("TXT_FONT_D") == Some(TxtFontD)
  {
  }

  /** No other suffix of `TXT_FONT_` names a property. */
  lemma FontKeyOther(u: string)
    requires Lookup("TXT_FONT_" + u).Some?
    ensures u == "A" || u == "B" || u == "C" || u == "D"
  {
    var k := "TXT_FONT_" + u;
    assert k[9..] == u;
    assert k[4] == 'F';
  }

  /** `cmds['TXT_FONT_' + u]` is an entry exactly for u = A, B, C, D. */
  lemma FontKey(u: string)
    ensures Lookup("TXT_FONT_" + u) ==
      if u == "A" then Some(TxtFontA)
      else if u == "B" then Some(TxtFontB)
      else if u == "C" then Some(TxtFontC)
      else if u == "D" then Some(TxtFontD)
      else None
  {
    var k := "TXT_FONT_" + u;
    FontKeys();
    if u == "A" {
      assert k == "TXT_FONT_A";
    } else if u == "B" {
      assert k == "TXT_FONT_B";
    } else if u == "C" {
      assert k == "TXT_FONT_C";
    } else if u == "D" {
      assert k == "TXT_FONT_D";
    } else if Lookup(k).Some? {
      FontKeyOther(u);
    }
  }

  /** The font entries are `ESC M m` with m = 0..3 for A..D. */
  lemma FontCommands()
    ensures Cmd(TxtFontA) == [0x1B, 0x4D, 0x00]
    ensures Cmd(TxtFontB) == [0x1B, 0x4D, 0x01]
    ensures Cmd(TxtFontC) == [0x1B, 0x4D, 0x02]
    ensures Cmd(TxtFontD) == [0x1B, 0x4D, 0x03]
  {
  }

  /** The barcode symbologies the table has a type-select command for, by their key suffix. */
  const Symbologies: seq<string> :=
    ["UPC_A", "UPC_E", "EAN13", "EAN8", "CODE39", "ITF", "NW7", "CODE93", "CODE128"]

  /** The entries of the symbologies, in the order of Symbologies. */
  const SymbologyNames: seq<Name> :=
    [BarcodeUpcA, BarcodeUpcE, BarcodeEan13, BarcodeEan8, BarcodeCode39,
     BarcodeItf, BarcodeNw7, BarcodeCode93, BarcodeCode128]

  /** The `m` byte of `GS k m` for each symbology, in the order of Symbologies. */
  const SymbologyCodes: seq<byte> := [0x00, 0x01, 0x02, 0x03, 0x04, 0x05, 0x06, 0x48, 0x49]

  /** `cmds['BARCODE_' + t]` for each symbology t is that symbology's entry. */
  lemma SymbologyKey(i: nat)
    requires i < |Symbologies|
    ensures Lookup("BARCODE_" + Symbologies[i]) == Some(SymbologyNames[i])
  {
    if i < 4 {
      SymbologyKeyUpcEan(i);
    } else {
      SymbologyKeyCode(i);
    }
  }

  /** SymbologyKey for the UPC and EAN symbologies. */
  lemma SymbologyKeyUpcEan(i: nat)
    requires i < 4
    ensures Lookup("BARCODE_" + Symbologies[i]) == Some(SymbologyNames[i])
  {
    var k := "BARCODE_" + Symbologies[i];
    if i == 0 { assert k == "BARCODE_UPC_A"; }
    else if i == 1 { assert k == "BARCODE_UPC_E"; }
    else if i == 2 { assert k == "BARCODE_EAN13"; }
    else { assert k == "BARCODE_EAN8"; }
  }

  /** SymbologyKey for CODE39, ITF, NW7, CODE93 and CODE128. */
  lemma SymbologyKeyCode(i: nat)
    requires 4 <= i < |Symbologies|
    ensures Lookup("BARCODE_" + Symbologies[i]) == Some(SymbologyNames[i])
  {
    var k := "BARCODE_" + Symbologies[i];
    if i == 4 { assert k == "BARCODE_CODE39"; }
    else if i == 5 { assert k == "BARCODE_ITF"; }
    else if i == 6 { assert k == "BARCODE_NW7"; }
    else if i == 7 { assert k == "BARCODE_CODE93"; }
    else { assert k == "BARCODE_CODE128"; }
  }

  /** The i-th symbology's entry is `GS k m` (1D 6B m) with its own m. */
  lemma SymbologyCommand(i: nat)
    requires i < |SymbologyNames|
    ensures Entry(SymbologyNames[i]) == [0x1D, 0x6B, SymbologyCodes[i]]
  {
  }

  /** No two symbologies select the same m. */
  lemma SymbologyCodesDistinct()
    ensures |SymbologyCodes| == |SymbologyNames| == |Symbologies|
    ensures forall i, j :: 0 <= i < j < |SymbologyCodes| ==> SymbologyCodes[i] != SymbologyCodes[j]
  {
  }

  /** The `GS ( k` prefix of the QR code commands. */
  const GsParenK: seq<byte> := [0x1D, 0x28, 0x6B]

  /** QRCODE_AREA_MSB is the three mode bytes `31 50 30` that the builder counts in the store-data length. */
  lemma QrAreaMsb()
    ensures Cmd(QrcodeAreaMsb) == [0x31, 0x50, 0x30]
  {
  }

  /** The bytes of the QR code commands the builder writes. */
  lemma QrCommandBytes()
    ensures Cmd(QrcodeSize) == GsParenK + [0x03, 0x00, 0x31, 0x43]
    ensures Cmd(QrcodeError) == GsParenK + [0x03, 0x00, 0x31, 0x45, 0x31]
    ensures Cmd(QrcodeAreaLsb) == GsParenK
    ensures Cmd(QrcodePrint) == GsParenK + [0x03, 0x00, 0x31, 0x51, 0x30]
  {
  }

  /** Every QR command except QRCODE_AREA_MSB starts with `GS ( k`. */
  lemma QrPrefix(n: Name)
    requires n in {QrcodeSizeModal, QrcodeSize, QrcodeError, QrcodeAreaLsb, QrcodePrint}
    ensures |Entry(n)| >= 3 && Entry(n)[..3] == GsParenK
  {
  }

  /** LINE_HEIGHT is `ESC 3 n` with n = 0x26: the opcode the builder writes for its own line heights. */
  lemma LineHeightCommand()
    ensures Cmd(LineHeight) == [0x1B, 0x33, 0x26]
  {
  }

  /** CASHBOX_OPEN is the one entry with a code unit of 0x80 or more. */
  lemma EntryIsAscii(n: Name)
    ensures AsciiUnits(Entry(n)) <==> n != CashboxOpen
  {
    TextEntriesAscii(n);
    BarcodeEntriesAscii(n);
    QrBeepEntriesAscii(n);
    if n == CashboxOpen {
      assert Entry(n)[3] == 0xFF;
    }
  }

  /** The paper, line and text style entries are ASCII. */
  lemma TextEntriesAscii(n: Name)
    ensures n in {InitialPrinter, NewLine, FootLine, PaperCutting, LineHeight, LineHeightB, ChnText,
                  TxtNormal, TxtSize, TxtBoldOff, TxtBoldOn, TxtAlignL, TxtAlignC, TxtAlignR,
                  TxtFontA, TxtFontB, TxtFontC, TxtFontD}
            ==> AsciiUnits(Entry(n))
  {
  }

  /** The barcode entries are ASCII. */
  lemma BarcodeEntriesAscii(n: Name)
    ensures n in {BarcodeTxtOff, BarcodeTxtAbv, BarcodeTxtBlw, BarcodeTxtBth, BarcodeFontA, BarcodeFontB,
                  BarcodeHeight, BarcodeWidth, BarcodeUpcA, BarcodeUpcE, BarcodeEan13, BarcodeEan8,
                  BarcodeCode39, BarcodeItf, BarcodeNw7, BarcodeCode93, BarcodeCode128}
            ==> AsciiUnits(Entry(n))
  {
  }

  /** The QR code entries and BEEP are ASCII. */
  lemma QrBeepEntriesAscii(n: Name)
    ensures n in {QrcodeSizeModal, QrcodeSize, QrcodeError, QrcodeAreaLsb, QrcodeAreaMsb, QrcodePrint, Beep}
            ==> AsciiUnits(Entry(n))
  {
  }

  /** The two 0xFF units of CASHBOX_OPEN become `C3 BF` each in UTF-8. */
  lemma CashboxBytes()
    ensures Utf8(EntryText(CashboxOpen)) == [0x1B, 0x70, 0x00, 0xC3, 0xBF, 0xC3, 0xBF]
  {
    Latin1Utf8IsUtf8(Entry(CashboxOpen));
  }
}
