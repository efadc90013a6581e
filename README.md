# PCPOS serial transaction record, in Dafny

This project models the `Serial` class of `ir.co.ecd.sample.pcpos.Main`
(`src/ir/co/ecd/sample/pcpos/Main.java`, lines 9-138): the client-side record of one card
payment with a POS terminal over a serial port. A `Serial` holds six caller-supplied settings
(port name, serial number, terminal number, merchant number, payment type, amount), seven
result fields that start at fixed "approved sale" values (STAN, RRN, result code, date/time,
PAN, balance, description) and an optional completion listener.

Three modules:

- `JavaText` (`java_text.dfy`): the java.lang.String behaviour the record relies on. `trim()`
  strips every character at or below U+0020 from both ends; `String.join` joins with no quoting;
  a null reference prints as `"null"`; `String.valueOf(int)` gives decimal digits. `Split` and
  `DecimalValue` are reference readers used to state round trips.
- `PanMask` (`pan_mask.dfy`): `getMaskedPAN`. `ReplaceFrom` runs the replacement of
  `(?<=\d{6})\d(?=\d{4})` by `*` the way the matcher does, left to right, one character per
  match, both lookarounds reading the original text. `IsMasked` states the rule per position:
  a digit with six digits before it and four after it. The lemmas prove the two agree.
- `Pcpos` (`serial.dfy`): `PaymentType`, the value `Record` of all fields except the listener,
  the pure operations as functions of a `Record` (`ParametersValid`, `Summary`, `Csv`,
  `Cleared`, `Failed`), and the class `Serial`. The class keeps the fields themselves, and its
  setters and mutators change them in place under `modifies` frames that name exactly the fields
  the source assigns.

Java `null` is `None`. The result fields are plain strings. The source never stores null in
them: they start non-null, and `reset`, `simulateFailure` and `generateNewSTAN` assign only
strings. So the `PAN != null` test of `getMaskedPAN` can never be false, and the model has no
such branch.

The length guard `PAN.length() >= 10` changes nothing. A match needs six digits before and four
after, so eleven characters. `MaskedPanShort` proves that masking leaves every PAN of length 10
or less unchanged. The guard only skips work.

`reset` keeps the port name and the listener: lines 96-98 do not assign them. The summary
prints a null field as `null`. After `reset` the CSV line holds `null` for the cleared settings.

## Model

| member | source | states |
|---|---|---|
| `JavaText.Trim` | src/ir/co/ecd/sample/pcpos/Main.java:87 | `trim()` is `TrimEnd` after `TrimStart`: never longer than its input, and a non-empty result begins and ends with a character above U+0020; `TrimEmptyIff` says exactly when it is empty |
| `JavaText.IsNotEmpty` | src/ir/co/ecd/sample/pcpos/Main.java:86-88 | `isNotEmpty`: non-null and not "" after `trim()`; a true result means the value is a non-empty string, and `IsNotEmptyIff` gives the exact condition |
| `JavaText.Join` | src/ir/co/ecd/sample/pcpos/Main.java:118-122 | `String.join` with a one-character delimiter: the characters of all parts plus one delimiter between each two, starting with the first part; `SplitJoin` reads it back |
| `JavaText.TrimStart` | src/ir/co/ecd/sample/pcpos/Main.java:86-88 | the leading part of `trim()` returns a suffix of its input; every dropped character is at most U+0020; a non-empty result starts with a character above U+0020 |
| `JavaText.TrimEnd` | src/ir/co/ecd/sample/pcpos/Main.java:86-88 | the trailing part of `trim()` returns a prefix of its input; every dropped character is at most U+0020; a non-empty result ends with a character above U+0020 |
| `JavaText.TrimEmptyIff` | src/ir/co/ecd/sample/pcpos/Main.java:86-88 | `trim()` gives "" exactly when no character is above U+0020 |
| `JavaText.IsNotEmptyIff` | src/ir/co/ecd/sample/pcpos/Main.java:86-88 | `isNotEmpty` holds exactly for a non-null string with a character above U+0020 |
| `JavaText.SplitJoin` | src/ir/co/ecd/sample/pcpos/Main.java:117-123 | cutting a `String.join` result at the delimiter gives back the joined pieces when no piece contains the delimiter |
| `JavaText.DecimalString` | src/ir/co/ecd/sample/pcpos/Main.java:114 | `String.valueOf` of a non-negative int is a non-empty string of decimal digits with no leading zero |
| `JavaText.DecimalRoundTrip` | src/ir/co/ecd/sample/pcpos/Main.java:114 | reading the rendered digits back gives the number |
| `JavaText.DecimalLength` | src/ir/co/ecd/sample/pcpos/Main.java:114 | a number in [10^(k-1), 10^k) renders as exactly k characters |
| `PanMask.ReplaceFrom` | src/ir/co/ecd/sample/pcpos/Main.java:109 | the replacement scan keeps the length, and every output character is the input character at that position or `*` |
| `PanMask.MaskedPan` | src/ir/co/ecd/sample/pcpos/Main.java:107-111 | `getMaskedPAN` keeps the length of the PAN and only ever puts `*` in place of a character |
| `PanMask.MatchAtIff` | src/ir/co/ecd/sample/pcpos/Main.java:109 | the pattern with its lookbehind and lookahead matches at position i exactly when the per-position rule `IsMasked` holds |
| `PanMask.MaskedPanAt` | src/ir/co/ecd/sample/pcpos/Main.java:107-111 | position k of the masked PAN is `*` if the character is a digit with six digits before it and four after it; otherwise it is the original character |
| `PanMask.MaskedPanRule` | src/ir/co/ecd/sample/pcpos/Main.java:107-111 | the per-position rule of `MaskedPanAt` for all positions at once |
| `PanMask.MaskedPanShort` | src/ir/co/ecd/sample/pcpos/Main.java:107-111 | a PAN of length 10 or less comes back unchanged |
| `PanMask.MaskedAllDigits` | src/ir/co/ecd/sample/pcpos/Main.java:107-111 | an all-digit PAN keeps its first six and last four digits, and every character between them becomes `*` |
| `PanMask.MaskedPanIdempotent` | src/ir/co/ecd/sample/pcpos/Main.java:107-111 | masking a masked PAN changes nothing |
| `PanMask.MaskedDemoPan` | src/ir/co/ecd/sample/pcpos/Main.java:107-111 | "603799601234123" is shown as "603799*****4123" |
| `PanMask.MaskedPanOfMaskedForm` | src/ir/co/ecd/sample/pcpos/Main.java:107-111 | six characters, any number of `*`, then four characters: masking returns it unchanged |
| `PanMask.MaskedDefaultPan` | src/ir/co/ecd/sample/pcpos/Main.java:107-111 | the default PAN "603799******1234" comes back unchanged |
| `Pcpos.ParametersValid` | src/ir/co/ecd/sample/pcpos/Main.java:80-84 | `validateParameters` on a record: `isNotEmpty` of port name, serial, terminal and merchant numbers and amount, and a non-null payment type; a valid record has all six settings non-null, and `ParametersValidIff` gives the exact condition |
| `Pcpos.ParametersValidIff` | src/ir/co/ecd/sample/pcpos/Main.java:80-88 | `validateParameters` holds exactly when port name, serial, terminal and merchant numbers and amount are non-null and each has a character above U+0020, and the payment type is non-null |
| `Pcpos.Initial` | src/ir/co/ecd/sample/pcpos/Main.java:15-27 | the field initialisers: all settings null and the results "123456", "654321", "00", "202507021200", "603799******1234", "50000", "Transaction Approved"; such a record does not validate, and its PAN is already in masked form |
| `Pcpos.Cleared` | src/ir/co/ecd/sample/pcpos/Main.java:95-99 | `reset` on a record: serial, terminal and merchant numbers, amount and payment type become null and the seven results ""; the result never validates, and `ClearedInvalidAndIdempotent` adds idempotence and the kept port name |
| `Pcpos.ClearedInvalidAndIdempotent` | src/ir/co/ecd/sample/pcpos/Main.java:95-99 | after `reset` the record does not validate, a second `reset` changes nothing, and the port name is kept |
| `Pcpos.Failed` | src/ir/co/ecd/sample/pcpos/Main.java:101-105 | `simulateFailure` on a record: result code "99", description "Transaction Failed", balance and PAN ""; the result is a decline and validates exactly when the original did, and `FailedKeepsTrace` adds the kept trace fields |
| `Pcpos.FailedKeepsTrace` | src/ir/co/ecd/sample/pcpos/Main.java:101-105 | after `simulateFailure` the result code is not "00"; STAN, RRN, date/time and the validity of the settings are unchanged; the masked PAN is "" |
| `Pcpos.Summary` | src/ir/co/ecd/sample/pcpos/Main.java:90-93 | `buildTransactionSummary` on a record: the five lines joined by line breaks; it starts with "[SUMMARY]" and a line break and holds the characters of the lines plus four line breaks; `SummaryReadsBack` reads it back |
| `Pcpos.SummaryReadsBack` | src/ir/co/ecd/sample/pcpos/Main.java:90-93 | if no printed value holds a line break, the summary is exactly five lines: "[SUMMARY]", then "Amount: ", "Type: ", "Merchant: " and "Terminal: ", each followed by its value, with null printed as "null" |
| `Pcpos.Csv` | src/ir/co/ecd/sample/pcpos/Main.java:117-123 | `exportTransactionDataCSV` on a record: the twelve columns joined by commas; it holds the characters of the columns plus eleven commas and starts with the serial number (or "null") and a comma; `CsvReadsBack` reads it back |
| `Pcpos.CsvReadsBack` | src/ir/co/ecd/sample/pcpos/Main.java:117-123 | if no value holds a comma, the CSV line reads back as exactly the twelve columns in the fixed order |
| `Pcpos.CsvAfterReset` | src/ir/co/ecd/sample/pcpos/Main.java:117-123 | after `reset` the CSV line reads back as `null,null,null,,null` followed by seven empty results |
| `Pcpos.SampleConfigurationValid` | src/ir/co/ecd/sample/pcpos/Main.java:146-154 | the sample configuration (COM3, a Sale of "1000") validates, whatever the result fields hold |
| `Pcpos.Serial.constructor` | src/ir/co/ecd/sample/pcpos/Main.java:15-29 | a new `Serial` has all settings and the listener null and the result fields at "123456", "654321", "00", "202507021200", "603799******1234", "50000" and "Transaction Approved", so it does not validate |
| `Pcpos.Serial.SetPortName` | src/ir/co/ecd/sample/pcpos/Main.java:31-33 | sets the port name and changes no other field |
| `Pcpos.Serial.SetSerialAfterReceivedListener` | src/ir/co/ecd/sample/pcpos/Main.java:35-37 | sets the listener and changes no other field |
| `Pcpos.Serial.SetSerialNumber` | src/ir/co/ecd/sample/pcpos/Main.java:39-41 | sets the serial number and changes no other field |
| `Pcpos.Serial.SetTerminalNumber` | src/ir/co/ecd/sample/pcpos/Main.java:43-45 | sets the terminal number and changes no other field |
| `Pcpos.Serial.SetMerchantNumber` | src/ir/co/ecd/sample/pcpos/Main.java:47-49 | sets the merchant number and changes no other field |
| `Pcpos.Serial.SetPaymentType` | src/ir/co/ecd/sample/pcpos/Main.java:51-53 | sets the payment type and changes no other field |
| `Pcpos.Serial.SetAmount` | src/ir/co/ecd/sample/pcpos/Main.java:55-57 | sets the amount and changes no other field |
| `Pcpos.Serial.InitCommunication` | src/ir/co/ecd/sample/pcpos/Main.java:59-62 | always returns true and changes no field |
| `Pcpos.Serial.Payment` | src/ir/co/ecd/sample/pcpos/Main.java:64-73 | the listener is notified exactly when the wait was not interrupted and a listener is set; an interrupted wait leaves the interrupt flag set; no field changes |
| `Pcpos.Serial.CloseCommunication` | src/ir/co/ecd/sample/pcpos/Main.java:75-78 | always returns true and changes no field |
| `Pcpos.Serial.ValidateParameters` | src/ir/co/ecd/sample/pcpos/Main.java:80-84 | `validateParameters` on the current fields: true exactly when port name, serial, terminal and merchant numbers and amount are non-null and hold a character above U+0020 and the payment type is non-null |
| `Pcpos.Serial.BuildTransactionSummary` | src/ir/co/ecd/sample/pcpos/Main.java:90-93 | `buildTransactionSummary` on the current fields: when amount, merchant and terminal hold no line break, it reads back as the header and the four labelled values |
| `Pcpos.Serial.GetMaskedPAN` | src/ir/co/ecd/sample/pcpos/Main.java:107-111 | `getMaskedPAN` on the current PAN: same length, and position k is `*` exactly when it holds a digit with six digits before it and four after it, the original character otherwise |
| `Pcpos.Serial.ExportTransactionDataCSV` | src/ir/co/ecd/sample/pcpos/Main.java:117-123 | `exportTransactionDataCSV` on the current fields: when no column holds a comma, it reads back as the twelve columns in source order |
| `Pcpos.Serial.Reset` | src/ir/co/ecd/sample/pcpos/Main.java:95-99 | serial, terminal and merchant numbers, amount and payment type become null and the seven result fields become ""; port name and listener are unchanged |
| `Pcpos.Serial.ClearConfiguration` | src/ir/co/ecd/sample/pcpos/Main.java:96-97 | first half of `reset` (a split that the Java class does not have): serial, terminal and merchant numbers, amount and payment type become null, and nothing else changes |
| `Pcpos.Serial.ClearResults` | src/ir/co/ecd/sample/pcpos/Main.java:98 | second half of `reset` (a split that the Java class does not have): the seven result fields become "", and nothing else changes |
| `Pcpos.Serial.SimulateFailure` | src/ir/co/ecd/sample/pcpos/Main.java:101-105 | result code becomes "99", description "Transaction Failed", balance and PAN ""; every other field and the listener are unchanged |
| `Pcpos.Serial.GenerateNewStan` | src/ir/co/ecd/sample/pcpos/Main.java:113-115 | STAN becomes the decimal rendering of some n in [100000, 999999]: six digits whose value is in that range; no other field changes |

The query methods of the Java class are class functions over `State()`: `ValidateParameters`,
`BuildTransactionSummary`, `GetMaskedPAN` and `ExportTransactionDataCSV`. They evaluate
`ParametersValid`, `Summary`, `PanMask.MaskedPan` and `Csv`. Being functions, they cannot change
a field.

## Left out

- Console output: the `printf`/`println` calls at lines 60, 69 and 76 are not modelled.
- The demo driver (`main`, `start`, `afterReceived`, lines 140-191) is left out. It is fixed-value wiring and padded report printing. Only its configuration is used, in `SampleConfigurationValid`.
- The getters (lines 125-137) are not modelled as members. Dafny reads the fields directly.
- Payment: the 500 ms `Thread.sleep` is not modelled. Its interruption is the boolean input `interrupted`.
- Payment: the thread's interrupt flag is modelled only as the returned `interruptFlag`.
- Payment: the listener is an opaque `Listener` value. What the callback does is outside the model (in the demo it closes the port and calls `reset`). The model records only whether the listener is called.
- GenerateNewStan: the floating-point expression `(int) (Math.random() * 900000 + 100000)` is not modelled. The model picks any integer in [100000, 999999], the range that expression yields.
- MaskedPan: the general Java regex engine is not modelled. Only the one pattern of line 109 is, as a left-to-right scan.
- Characters: Java `char` is a UTF-16 code unit and Dafny `char` is a Unicode scalar value. Surrogate pairs are not modelled. Trimming and `\d` depend only on characters up to U+0039, so they are unaffected.
- Join: `String.join` is modelled with a one-character delimiter only. The source uses only ",".
