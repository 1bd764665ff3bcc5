# ESC/POS receipt builder, modelled in Dafny

The library builds the byte stream for an ESC/POS thermal receipt printer.
A `printer` object holds a queue of bytes. Its chained methods (`text`,
`line`, `blank`, `setAlign`, `setFont`, `setLineheight`, `setStyle`,
`setSize`, `barcode`, `qrcode`, `openCashbox`, `beep`) each append an exact
byte sequence, mostly taken from the constant command table of
`lib/commands.js`. `print` appends the page footer and hands the queue to
the operating system's spooler. A successful send clears the queue, and so
does `empty`.

The model has three modules:

- `JsRuntime` (`js_runtime.dfy`) writes out the JavaScript and Node.js
  conversions the builder depends on:
  - `new Buffer(string)` is UTF-8.
  - `string.length` counts UTF-16 code units.
  - `n.toString(16)` followed by `new Buffer(['0x' + hex])` keeps the low
    8 bits of a natural number and turns a negative one into 0, through NaN.
  - `toUpperCase` is applied to ASCII letters.
- `Commands` (`commands.dfy`) is the command table. `Name` lists the
  entries and `Keys` maps each property name to its entry. `Entry` gives
  the entry's code units, `Lookup` is `cmds[key]`, `Cmd` is what
  `new Buffer(cmds[name])` holds, and `WriteCmdBytes` is what `_writeCmd`
  appends.
- `Printer` (`printer.dfy`) has one function per builder operation, giving
  the bytes that operation appends (`TextBytes`, `LineHeightBytes`,
  `SizeBytes`, `BarcodeBytes`, `QrBytes`, and so on), with lemmas about
  what those bytes mean. It also has `class Printer`, whose field `buf` is
  the queue. Each method is proved to append exactly its function's bytes.

Three places follow the code rather than what a reader might expect:

- `barcode` ends with `new Buffer(0)`, which is an empty buffer, so no NUL
  byte follows the code.
- `blank` sets the line height to 14 (`1B 33 0E`).
- CASHBOX_OPEN is stored as `\xFF\xFF`, and `new Buffer` encodes each of
  those characters as `C3 BF`.

A failed send sets the message `Print Failed`, but its callback receives a
null error, just as a successful one does. An accepted send calls its
callback before it empties the queue, so without a callback it stops at that
call with the message `Print Success` and the queue still full.

## Model

| member | source | states |
|---|---|---|
| JsRuntime.CharUtf8Shape | lib/printer.js:173 | a character's UTF-8 image is one byte, the character itself, exactly when it is below 0x80; otherwise it is a lead byte of 0xC0 or more followed by continuation bytes |
| JsRuntime.Utf8 | lib/printer.js:173 | `new Buffer(s)` has no bytes exactly when s is the empty string |
| JsRuntime.Utf8Length | lib/printer.js:173 | `new Buffer(s)` has at least one byte per character |
| JsRuntime.Utf8Append | lib/printer.js:229 | the encoding of `a + b` is the encoding of a followed by the encoding of b |
| JsRuntime.Utf8OfAscii | lib/printer.js:173 | a string is ASCII exactly when its UTF-8 image has one byte per character, and then each byte is its character's code |
| JsRuntime.Latin1Utf8IsUtf8 | lib/printer.js:239 | encoding a table string written with `\x..` escapes gives one byte per unit below 0x80 and two bytes for any other unit |
| JsRuntime.Latin1Utf8Identity | lib/printer.js:239 | the UTF-8 image of such a string equals its code units exactly when every unit is below 0x80 |
| JsRuntime.Latin1Utf8Length | lib/printer.js:239 | the UTF-8 image has at least as many bytes as the string has code units |
| JsRuntime.Utf16LengthBounds | lib/printer.js:187 | `text.length` is between the number of characters and twice that number |
| JsRuntime.Utf16LengthOfAscii | lib/printer.js:168 | for ASCII text, `code.length` equals both the number of characters and the number of UTF-8 bytes |
| JsRuntime.ToHex | lib/printer.js:104 | `n.toString(16)` is a non-empty string of hexadecimal digits that starts with 0 only for n = 0 |
| JsRuntime.IntToHex | lib/printer.js:159-160 | `toString(16)` of a negative number, and only of a negative number, starts with a minus sign |
| JsRuntime.HexRoundTrip | lib/printer.js:104-105 | reading `'0x' + n.toString(16)` as a number gives n back |
| JsRuntime.ParseNonDigit | lib/printer.js:104-105 | a digit string containing a character that is not a hexadecimal digit is NaN |
| JsRuntime.HexElement | lib/printer.js:104-105 | `new Buffer(['0x' + n.toString(16)])` keeps n mod 256 for n >= 0 and 0 for negative n |
| JsRuntime.HexBuffer | lib/printer.js:159-161 | building that one-element buffer gives the byte LowByte(n) |
| JsRuntime.HexDigit | lib/printer.js:104 | every digit `toString(16)` writes reads back as its value |
| JsRuntime.ToUpper | lib/printer.js:86 | on the ASCII letters, `toUpperCase` moves each lower-case letter to its capital and leaves every other character as it is, so the result has the same length and no lower-case letter |
| JsRuntime.ToUpperIsLetter | lib/printer.js:118-119 | a string upper-cases to a single capital letter exactly when it is that letter in either case |
| Commands.Entry | lib/commands.js:5-68 | no entry of the table is the empty string, so every entry is truthy |
| Commands.CmdIsUtf8 | lib/printer.js:239 | the bytes written for an entry are the UTF-8 encoding of its string |
| Commands.EntryIsAscii | lib/commands.js:6-67 | CASHBOX_OPEN is the only entry with a code unit of 0x80 or more |
| Commands.CashboxBytes | lib/commands.js:64 | `new Buffer(CASHBOX_OPEN)` is `1B 70 00 C3 BF C3 BF` |
| Commands.WriteCmdSkips | lib/printer.js:237-241 | `_writeCmd(key)` appends nothing exactly when key is not a property of the table |
| Commands.WriteCmdStored | lib/printer.js:237-241 | `_writeCmd` with a key of the table appends that entry's bytes |
| Commands.AlignKeys | lib/commands.js:20-22 | the keys TXT_ALIGN_L, C and R name the three alignment entries |
| Commands.AlignKeyOther | lib/commands.js:20-22 | no other suffix after `TXT_ALIGN_` is a key |
| Commands.AlignKey | lib/printer.js:86 | `cmds['TXT_ALIGN_' + u]` is an entry exactly for u = L, C, R |
| Commands.AlignCommands | lib/commands.js:20-22 | the alignment entries are `1B 61 m` with m = 0, 1, 2 for L, C, R |
| Commands.FontKeys | lib/commands.js:25-28 | the keys TXT_FONT_A to D name the four font entries |
| Commands.FontKeyOther | lib/commands.js:25-28 | no other suffix after `TXT_FONT_` is a key |
| Commands.FontKey | lib/printer.js:95 | `cmds['TXT_FONT_' + u]` is an entry exactly for u = A, B, C, D |
| Commands.FontCommands | lib/commands.js:25-28 | the font entries are `1B 4D m` with m = 0 to 3 for A to D |
| Commands.SymbologyKey | lib/commands.js:44-52 | `BARCODE_` followed by each of the nine symbology names is the key of that symbology's entry |
| Commands.SymbologyCommand | lib/commands.js:44-52 | every barcode type select is the three bytes `1D 6B m` |
| Commands.SymbologyCodesDistinct | lib/commands.js:44-52 | no two symbologies share their m |
| Commands.QrAreaMsb | lib/commands.js:60 | QRCODE_AREA_MSB is the three bytes `31 50 30` that the builder's `+ 3` counts |
| Commands.QrCommandBytes | lib/commands.js:57-61 | the bytes of QRCODE_SIZE, QRCODE_ERROR, QRCODE_AREA_LSB and QRCODE_PRINT, each `GS ( k` followed by its parameters |
| Commands.QrPrefix | lib/commands.js:56-61 | every QR entry except QRCODE_AREA_MSB begins with `1D 28 6B` |
| Commands.LineHeightCommand | lib/commands.js:10 | LINE_HEIGHT is `1B 33 26` |
| Printer.Repeat | lib/printer.js:58-60 | s repeated n times has n times the length of s |
| Printer.RepeatSingle | lib/printer.js:74-76 | writing one byte n times gives n copies of that byte |
| Printer.RepeatEmpty | lib/printer.js:58-60 | repeating the empty string gives the empty string |
| Printer.TextLineFeed | lib/printer.js:40-46 | empty text writes nothing; any other text writes its GBK bytes, and the line form adds exactly one `0A` |
| Printer.LineHeightField | lib/printer.js:102-110 | `ESC 3 n`: n is the number itself for 1 to 255, its low 8 bits above 255, 0 for a negative number, and 0x26 (LINE_HEIGHT) for 0 or no argument |
| Printer.LineHeightOpcode | lib/printer.js:105-107 | the dynamic line height and LINE_HEIGHT share the opcode `1B 33` |
| Printer.LineHeightBuffer | lib/printer.js:102-110 | building what `setLineheight(num)` writes gives LineHeightBytes(num) |
| Printer.AlignWrite | lib/printer.js:86 | `_writeCmd('TXT_ALIGN_' + u)` writes the alignment entry for the upper-case L, C and R, and nothing for any other suffix |
| Printer.AlignCase | lib/printer.js:86 | upper-casing the argument first makes `l`, `c` and `r` select the same alignments as `L`, `C` and `R` |
| Printer.AlignLetters | lib/printer.js:85-88 | `setAlign` selects L, C or R in either case, and appends nothing for any other argument |
| Printer.FontWrite | lib/printer.js:95 | `_writeCmd('TXT_FONT_' + u)` writes the font entry for the upper-case A to D, and nothing for any other suffix |
| Printer.FontCase | lib/printer.js:95 | upper-casing the argument first makes `a` to `d` select the same fonts as `A` to `D` |
| Printer.FontLetters | lib/printer.js:94-97 | `setFont` selects A to D in either case, and appends nothing for any other argument |
| Printer.StyleBold | lib/printer.js:117-119 | the style, `normal` when none is given, upper-cases to `B` exactly when it is `B` or `b` |
| Printer.StyleCommands | lib/commands.js:17-18 | TXT_BOLD_ON is `1B 45 01` and TXT_BOLD_OFF is `1B 45 00` |
| Printer.EntryThenText | lib/printer.js:140 | `new Buffer(cmds[name] + s)` is the entry's bytes followed by the UTF-8 bytes of s |
| Printer.EntryBuffer | lib/printer.js:145 | building that buffer gives the entry's bytes followed by the UTF-8 bytes of the text |
| Printer.SizeChoices | lib/printer.js:136-147 | size 2 writes `1B 33 3A 1D 21 11` and size 3 writes `1B 33 46 1D 21 22` after the two fixed commands |
| Printer.SizeBuffer | lib/printer.js:136-147 | building the size-dependent part gives SizeSelect(size): line height and TXT_SIZE with `\x11` for 2, with `\x22` for 3, nothing otherwise |
| Printer.SizeCommands | lib/printer.js:133-149 | `setSize` always starts with `1D 21 00 1B 33 26`; size 2 adds `1B 33 3A 1D 21 11`, size 3 adds `1B 33 46 1D 21 22`, and any other size adds nothing |
| Printer.BarcodeSetupBytes | lib/printer.js:159-164 | the setup is `1D 68 h 1D 77 w 1D 66 00 1D 48 02` |
| Printer.BarcodeHeader | lib/printer.js:159-164 | every barcode starts with `1D 68 h 1D 77 w 1D 66 00 1D 48 02` |
| Printer.BarcodeEndsWithCode | lib/printer.js:173-174 | a barcode ends with the UTF-8 bytes of the code, with no terminator after them |
| Printer.BarcodeUnknownType | lib/printer.js:165 | a type with no `BARCODE_` entry gets no type select byte, and the data follows the setup directly |
| Printer.Code128Select | lib/printer.js:165 | `_writeCmd('BARCODE_CODE128')` writes `1D 6B 49` |
| Printer.Code128Data | lib/printer.js:167-173 | for a short ASCII code the CODE128 data is the length plus 2, `7B 42`, then one byte per character |
| Printer.Code128Bytes | lib/printer.js:158-176 | a CODE128 barcode of a short ASCII code is the setup, `1D 6B 49`, the length byte, `7B 42` and the code |
| Printer.Code128LengthByte | lib/printer.js:165-173 | for an ASCII CODE128 code shorter than 254 characters, `GS k 73` is followed by a length byte that counts exactly the bytes after it: `7B 42` and the code |
| Printer.QrBuffer | lib/printer.js:184-207 | the buffers `qrcode` builds are QrBytes: the refusal line for text outside the class, and otherwise the QR commands with the size and length bytes |
| Printer.QrTextLength | lib/printer.js:187-189 | for text the pattern accepts, `text.length` is the number of characters and of UTF-8 bytes |
| Printer.QrTextIsAscii | lib/printer.js:189 | text the pattern accepts is ASCII |
| Printer.QrRefused | lib/printer.js:189-191 | text the pattern refuses gets the GBK message and a line feed, and none of a QR code |
| Printer.QrHeadBytes | lib/printer.js:199-202 | the 19 bytes before the length field, with the size byte eighth |
| Printer.QrSymbolLayout | lib/printer.js:199-206 | size byte at offset 7, `pL pH` at offsets 19 and 20, then the store-data block, then QRCODE_PRINT in the last 8 bytes |
| Printer.QrFields | lib/printer.js:194-197 | a size below 256 is written as itself, and `len % 256` and `len / 256` spell out any length below 65536 |
| Printer.QrStoreLength | lib/printer.js:184-207 | for accepted text shorter than 65533 characters, `pL + 256 * pH` equals the number of bytes of `31 50 30` plus the text; the size byte is the given size, 8 by default |
| Printer.DrawerBytes | lib/printer.js:214-218 | `openCashbox` writes `1B 70 00 C3 BF C3 BF 1B 40` |
| Printer.BeepFields | lib/printer.js:226-230 | the beep is `1B 42` followed by the UTF-8 bytes of the count and then of the interval |
| Printer.BeepDefaults | lib/printer.js:227-229 | with no arguments the beep is `1B 42 09 01` |
| Printer.FooterBytes | lib/printer.js:248-250 | `print` appends `1B 64 04 1D 56 41 1B 40` before sending |
| Printer.SetupCommands | lib/printer.js:27-29 | the constructor queues `1B 40 1B 52 0F 1B 33 26` |
| Printer.Printer.constructor | lib/printer.js:12-31 | the name is the given one or the default; a printer the spooler knows gets the setup bytes and `Get printer success`; an unknown one gets no queue and no message |
| Printer.Printer.WriteCmd | lib/printer.js:237-241 | appends WriteCmdBytes(key), and leaves the queue unchanged exactly when key is not in the table; such a call needs no queue |
| Printer.Printer.WriteEntry | lib/printer.js:237-241 | `_writeCmd` with a literal key of the table appends that entry's bytes |
| Printer.Printer.Text | lib/printer.js:40-46 | appends TextBytes(s, inline) and nothing else; empty text needs no queue |
| Printer.Printer.Line | lib/printer.js:54-63 | appends TXT_ALIGN_L, then str repeated length times (32 for 0) as a line of text |
| Printer.Printer.Blank | lib/printer.js:70-79 | appends TXT_ALIGN_L, `1B 33 0E`, number line feeds (one for 0), and `1B 33 26` |
| Printer.Printer.SetAlign | lib/printer.js:85-88 | appends AlignBytes(align); an alignment that names no entry needs no queue |
| Printer.Printer.SetFont | lib/printer.js:94-97 | appends FontBytes(family); a family that names no entry needs no queue |
| Printer.Printer.SetLineheight | lib/printer.js:102-110 | appends LineHeightBytes(num) |
| Printer.Printer.SetStyle | lib/printer.js:116-127 | appends TXT_BOLD_ON for `B` or `b`, and TXT_BOLD_OFF otherwise, including when no style is given |
| Printer.Printer.SetSize | lib/printer.js:133-149 | appends SizeBytes(size) |
| Printer.Printer.Barcode | lib/printer.js:158-176 | appends the setup, the type select if there is one, and the data, with the width and height bytes as the Buffer keeps them |
| Printer.Printer.Qrcode | lib/printer.js:184-208 | appends QrBytes(text, size) |
| Printer.Printer.OpenCashbox | lib/printer.js:214-218 | appends DrawerBytes |
| Printer.Printer.Beep | lib/printer.js:226-231 | appends BeepBytes, with `\x09` and `\x01` as the defaults |
| Printer.Printer.SendCmd | lib/printer.js:257-273 | the queue is handed to the spooler; when it is accepted the message is `Print Success` and the queue is emptied if there is a callback to call first, and kept if the missing callback stops the handler; when it is refused the queue is kept and the message is `Print Failed` |
| Printer.Printer.Print | lib/printer.js:247-252 | sends the queue with the footer appended, and then behaves as SendCmd, with or without a callback |
| Printer.Printer.Empty | lib/printer.js:278-281 | the queue is empty afterwards, however often this is called |

## Left out

- The spooler (`getDefaultPrinterName`, `getPrinter`, `printDirect`) is modelled by parameters. The constructor takes the default printer's name and the set of installed printers. `SendCmd` and `Print` take whether the spooler accepted the job and whether a callback was given. `jobs` records what was handed over.
- Callbacks are not modelled: the constructor's report, the completion of `printDirect` and its asynchrony. The outcome is kept in `msg`. This includes the null error the failure path passes. The TypeError `sendCmd` raises when it has no callback is modelled only by where it stops: the message is set and the queue is not emptied.
- `iconv.encode(text, 'gbk')` is a function that the constructor receives (`gbk`). GBK itself is not modelled.
- `BufferHelper` is modelled as a plain sequence of bytes (`buf`).
- A printer whose constructor failed has no `_queue`. Every call that writes to the queue then throws a TypeError, and the model requires `ready` for those calls. Calls that never reach the queue return normally and are allowed without `ready`: `text` with empty text, `setAlign` and `setFont` with a letter that names no entry, and `_writeCmd` with a key the table lacks (`WriteCmd`, `Text`, `SetAlign`, `SetFont`). The TypeError itself is not modelled.
- Strings holding a lone UTF-16 surrogate (such as `'\uD800'`) are outside the model, because a Dafny `string` holds only Unicode scalar values. For such a string `new Buffer(s)` writes `EF BF BD` for the surrogate and `.length` counts it once; this concerns `barcode`'s code (and so the CODE128 length byte), `beep`'s arguments, and any other string the builder encodes.
- Omitted arguments are modelled only where the code gives them a default: `printerName`, `text`'s `text` and `inline`, `line`'s `length`, `blank`'s `number`, `setLineheight`'s `num`, `setStyle`'s `type`, `qrcode`'s `size`, and `beep`'s `times` and `interval`; there the empty string or 0 stands for the omitted value, exactly as the falsy test treats it. Everywhere else the empty string or 0 is an explicit empty string or zero. Omitting those arguments is left out: `setAlign()`, `setFont()`, `barcode` without `width` or `height`, and `qrcode()` without text raise a TypeError, and `line()` without `str` prints the word `undefined` `length` times. JavaScript falsiness of other values is not modelled, nor are non-string or non-number arguments, fractional numbers, or a string size for `qrcode`.
- `setSize` receives the value of `parseInt(size)`. The parsing itself is not modelled.
- JsRuntime.ToUpper: models the case mapping of the ASCII letters only; the Unicode mappings of other characters (`ß` to `SS`, which also changes the length, `ı` to `I`) are not modelled. No non-ASCII character upper-cases to a single A, B, C, D, L or R, so no result of `setAlign`, `setFont` or `setStyle` depends on them.
- `Lookup` sees only the table's own keys. Keys inherited from `Object.prototype` (`constructor`, `toString` and the like) are not modelled; none of them starts with the `TXT_ALIGN_`, `TXT_FONT_` or `BARCODE_` prefixes the builder puts before its arguments.
- `qrcode` computes `len` before the pattern test. The model computes it on the accepted path, the only path that reads it.
- Printer.Printer.SetSize: builds the line height with LineHeightBuffer, the method Printer.Printer.SetLineheight uses, rather than calling SetLineheight; the bytes appended are the same.
- Printer.Printer.Qrcode: on refused text it appends TextBytes directly, which is the contract of Printer.Printer.Text, rather than calling Text.
- Printer.Code128LengthByte: holds only for ASCII codes shorter than 254 characters. For other codes, `code.length + 2` (in UTF-16 units, modulo 256) does not count the UTF-8 bytes written; BarcodeBytes still models that byte exactly.
- Printer.QrStoreLength: holds only for text shorter than 65533 characters. Longer text wraps the length field; QrBytes still models the bytes exactly.
