/** The client-side record of one card payment with a POS terminal over a serial port:
    the `Serial` class of `ir.co.ecd.sample.pcpos.Main`.

    `Record` is the value of every field a `Serial` holds except its listener. The pure
    operations (validation, the summary block, the CSV line) are functions of a `Record`;
    the class keeps the fields themselves and changes them in place.
 */
module Pcpos {
  import opened JavaText
  import PanMask

  datatype PaymentType = Sale | Refund

  /** `Enum.name()`, which is also what `%s` prints for a non-null payment type. */
  function Name(t: PaymentType): string {
    match t
    case Sale => "Sale"
    case Refund => "Refund"
  }

  /** A registered completion callback. Only its identity is modelled, not what it does. */
  datatype Listener = Listener(id: nat)

  datatype Record = Record(
    // configuration supplied by the caller; None is Java's null
    portName: Option<string>,
    serialNumber: Option<string>,
    terminalNumber: Option<string>,
    merchantNumber: Option<string>,
    paymentType: Option<PaymentType>,
    amount: Option<string>,
    // result of the exchange; the source never stores null in these
    stan: string,
    rrn: string,
    resultCode: string,
    dateTime: string,
    pan: string,
    balance: string,
    description: string)

  /** The field initialisers: configuration null, results at their approved-sale sentinels.
      Such a record does not validate, and its PAN is already in masked form. */
  function Initial(): (r: Record)
    ensures !ParametersValid(r)
    ensures PanMask.MaskedPan(r.pan) == r.pan
  {
    PanMask.MaskedDefaultPan();
    Record(None, None, None, None, None, None,
      "123456", "654321", "00", "202507021200", "603799******1234", "50000", "Transaction Approved")
  }

  /** `validateParameters`: the four numbers, the port name and the amount are set and not
      blank after `trim()`, and a payment type is set. */
  function ParametersValid(r: Record): (ok: bool)
    ensures ok ==> r.portName.Some? && r.serialNumber.Some? && r.terminalNumber.Some?
    ensures ok ==> r.merchantNumber.Some? && r.paymentType.Some? && r.amount.Some?
  {
    IsNotEmpty(r.portName) && IsNotEmpty(r.serialNumber)
      && IsNotEmpty(r.terminalNumber) && IsNotEmpty(r.merchantNumber)
      && r.paymentType.Some? && IsNotEmpty(r.amount)
  }

  /** Validation holds exactly when every string setting is non-null and holds a character
      above U+0020, and the payment type is non-null. */
  lemma ParametersValidIff(r: Record)
    ensures ParametersValid(r) <==>
      && r.portName.Some? && HasVisibleChar(r.portName.value)
      && r.serialNumber.Some? && HasVisibleChar(r.serialNumber.value)
      && r.terminalNumber.Some? && HasVisibleChar(r.terminalNumber.value)
      && r.merchantNumber.Some? && HasVisibleChar(r.merchantNumber.value)
      && r.paymentType.Some?
      && r.amount.Some? && HasVisibleChar(r.amount.value)
  {
    IsNotEmptyIff(r.portName);
    IsNotEmptyIff(r.serialNumber);
    IsNotEmptyIff(r.terminalNumber);
    IsNotEmptyIff(r.merchantNumber);
    IsNotEmptyIff(r.amount);
  }

  /** `reset`: configuration other than the port name becomes null, every result becomes "".
      The cleared record never validates. */
  function Cleared(r: Record): (c: Record)
    ensures !ParametersValid(c)
  {
    r.(serialNumber := None, terminalNumber := None, merchantNumber := None, amount := None,
       paymentType := None,
       stan := "", rrn := "", resultCode := "", dateTime := "", pan := "", balance := "",
       description := "")
  }

  /** After a reset the record no longer validates, and a second reset changes nothing. */
  lemma ClearedInvalidAndIdempotent(r: Record)
    ensures !ParametersValid(Cleared(r))
    ensures Cleared(Cleared(r)) == Cleared(r)
    ensures Cleared(r).portName == r.portName
  {
  }

  /** `simulateFailure`: result code "99", failure text, no balance and no PAN. The result is
      a decline and validates exactly when the original did. */
  function Failed(r: Record): (f: Record)
    ensures f.resultCode != "00"
    ensures ParametersValid(f) == ParametersValid(r)
  {
    r.(resultCode := "99", description := "Transaction Failed", balance := "", pan := "")
  }

  /** A simulated failure is a decline, keeps the trace identifiers and leaves the configuration alone. */
  lemma FailedKeepsTrace(r: Record)
    ensures Failed(r).resultCode != "00"
    ensures Failed(r).stan == r.stan && Failed(r).rrn == r.rrn && Failed(r).dateTime == r.dateTime
    ensures ParametersValid(Failed(r)) == ParametersValid(r)
    ensures PanMask.MaskedPan(Failed(r).pan) == ""
  {
  }

  /** How `%s` prints the payment type: its name, or "null". */
  function TypeText(t: Option<PaymentType>): string {
    match t
    case None => "null"
    case Some(p) => Name(p)
  }

  /** The lines of `buildTransactionSummary`: a header, then amount, type, merchant and terminal. */
  function SummaryLines(r: Record): seq<string> {
    ["[SUMMARY]", "Amount: " + ValueOf(r.amount), "Type: " + TypeText(r.paymentType),
     "Merchant: " + ValueOf(r.merchantNumber), "Terminal: " + ValueOf(r.terminalNumber)]
  }

  /** `buildTransactionSummary`: the format "[SUMMARY]\nAmount: %s\nType: %s\nMerchant: %s\nTerminal: %s"
      filled in, that is, the five lines separated by line breaks: it starts with the header
      line and holds the characters of the lines plus four line breaks. */
  function Summary(r: Record): (s: string)
    ensures |s| == TotalLength(SummaryLines(r)) + 4
    ensures s[..10] == "[SUMMARY]\n"
  {
    Join(SummaryLines(r), '\n')
  }

  /** Cutting the summary at line breaks gives exactly its five lines, when no value holds a line break. */
  lemma SummaryReadsBack(r: Record)
    requires '\n' !in ValueOf(r.amount)
    requires '\n' !in ValueOf(r.merchantNumber) && '\n' !in ValueOf(r.terminalNumber)
    ensures Split(Summary(r), '\n') == SummaryLines(r)
    ensures |Split(Summary(r), '\n')| == 5
  {
    var l := SummaryLines(r);
    assert '\n' !in TypeText(r.paymentType);
    forall k | 0 <= k < 5 ensures '\n' !in l[k] {
    }
    SplitJoin(l, '\n');
  }

  /** The twelve columns of `exportTransactionDataCSV`, in their fixed order. */
  function CsvFields(r: Record): seq<string> {
    [ValueOf(r.serialNumber), ValueOf(r.terminalNumber), ValueOf(r.merchantNumber),
     if r.paymentType.Some? then Name(r.paymentType.value) else "",
     ValueOf(r.amount), r.stan, r.rrn, r.resultCode, r.dateTime, r.pan, r.balance,
     r.description]
  }

  /** `exportTransactionDataCSV`: the columns joined by ',', with no quoting: the characters of
      the columns plus eleven commas, starting with the serial number and a comma. */
  function Csv(r: Record): (line: string)
    ensures |line| == TotalLength(CsvFields(r)) + 11
    ensures line[..|ValueOf(r.serialNumber)| + 1] == ValueOf(r.serialNumber) + ","
  {
    Join(CsvFields(r), ',')
  }

  /** When no value holds a comma, the line reads back as exactly the twelve columns. */
  lemma CsvReadsBack(r: Record)
    requires forall k | 0 <= k < |CsvFields(r)| :: ',' !in CsvFields(r)[k]
    ensures Split(Csv(r), ',') == CsvFields(r)
    ensures |Split(Csv(r), ',')| == 12
  {
    SplitJoin(CsvFields(r), ',');
  }

  /** After a reset the line reads back as three "null"s, an empty type, a "null" amount and
      seven empty results: twelve columns still. */
  lemma CsvAfterReset(r: Record)
    ensures Split(Csv(Cleared(r)), ',') == ["null", "null", "null", "", "null", "", "", "", "", "", "", ""]
  {
    var c := Cleared(r);
    assert CsvFields(c) == ["null", "null", "null", "", "null", "", "", "", "", "", "", ""];
    CsvReadsBack(c);
  }

  class Serial {
    var portName: Option<string>
    var serialNumber: Option<string>
    var terminalNumber: Option<string>
    var merchantNumber: Option<string>
    var paymentType: Option<PaymentType>
    var amount: Option<string>
    var stan: string
    var rrn: string
    var resultCode: string
    var dateTime: string
    var pan: string
    var balance: string
    var description: string
    var listener: Option<Listener>

    /** Every field but the listener, as a value. */
    function State(): Record
      reads this
    {
      Record(portName, serialNumber, terminalNumber, merchantNumber, paymentType, amount,
        stan, rrn, resultCode, dateTime, pan, balance, description)
    }

    constructor ()
      ensures State() == Initial() && listener == None
      ensures !ValidateParameters()
    {
      portName, serialNumber, terminalNumber, merchantNumber := None, None, None, None;
      paymentType, amount := None, None;
      stan, rrn, resultCode, dateTime := "123456", "654321", "00", "202507021200";
      pan, balance, description := "603799******1234", "50000", "Transaction Approved";
      listener := None;
    }

    method SetPortName(portName: Option<string>)
      modifies this`portName
      ensures this.portName == portName
    {
      this.portName := portName;
    }

    method SetSerialAfterReceivedListener(listener: Option<Listener>)
      modifies this`listener
      ensures this.listener == listener
    {
      this.listener := listener;
    }

    method SetSerialNumber(serialNumber: Option<string>)
      modifies this`serialNumber
      ensures this.serialNumber == serialNumber
    {
      this.serialNumber := serialNumber;
    }

    method SetTerminalNumber(terminalNumber: Option<string>)
      modifies this`terminalNumber
      ensures this.terminalNumber == terminalNumber
    {
      this.terminalNumber := terminalNumber;
    }

    method SetMerchantNumber(merchantNumber: Option<string>)
      modifies this`merchantNumber
      ensures this.merchantNumber == merchantNumber
    {
      this.merchantNumber := merchantNumber;
    }

    method SetPaymentType(paymentType: Option<PaymentType>)
      modifies this`paymentType
      ensures this.paymentType == paymentType
    {
      this.paymentType := paymentType;
    }

    method SetAmount(amount: Option<string>)
      modifies this`amount
      ensures this.amount == amount
    {
      this.amount := amount;
    }

    /** Opening the port always succeeds; nothing in the record changes. */
    method InitCommunication() returns (ok: bool)
      ensures ok
    {
      ok := true;
    }

    /** The exchange: after the wait the listener, if any, is told once. An interrupted wait
        returns early without telling it and leaves the thread's interrupt flag set.
        No field changes either way. */
    method Payment(interrupted: bool) returns (notified: bool, interruptFlag: bool)
      ensures notified <==> !interrupted && listener.Some?
      ensures interruptFlag == interrupted
    {
      if interrupted {
        return false, true;
      }
      notified, interruptFlag := listener.Some?, false;
    }

    /** Closing the port always succeeds; nothing in the record changes. */
    method CloseCommunication() returns (ok: bool)
      ensures ok
    {
      ok := true;
    }

    /** `validateParameters` on the current fields: true exactly when every string setting is
        non-null and holds a character above U+0020 and the payment type is non-null. */
    function ValidateParameters(): (ok: bool)
      reads this
      ensures ok <==>
        && portName.Some? && HasVisibleChar(portName.value)
        && serialNumber.Some? && HasVisibleChar(serialNumber.value)
        && terminalNumber.Some? && HasVisibleChar(terminalNumber.value)
        && merchantNumber.Some? && HasVisibleChar(merchantNumber.value)
        && paymentType.Some?
        && amount.Some? && HasVisibleChar(amount.value)
    {
      ParametersValidIff(State());
      ParametersValid(State())
    }

    /** `buildTransactionSummary` on the current fields: read back line by line it is the
        header and the four labelled values, when none of them holds a line break. */
    function BuildTransactionSummary(): (s: string)
      reads this
      ensures ('\n' !in ValueOf(amount) && '\n' !in ValueOf(merchantNumber)
        && '\n' !in ValueOf(terminalNumber)) ==> Split(s, '\n') == SummaryLines(State())
    {
      if '\n' !in ValueOf(amount) && '\n' !in ValueOf(merchantNumber)
        && '\n' !in ValueOf(terminalNumber)
      then SummaryReadsBack(State()); Summary(State())
      else Summary(State())
    }

    /** `reset`: the configuration except the port name becomes null and every result
        becomes "" (State() == Cleared(old(State()))); the port name and the listener stay. */
    method Reset()
      modifies this`serialNumber, this`terminalNumber, this`merchantNumber, this`amount,
        this`paymentType, this`stan, this`rrn, this`resultCode, this`dateTime, this`pan,
        this`balance, this`description
      ensures State() == Cleared(old(State())) && listener == old(listener)
    {
      ClearConfiguration();
      ClearResults();
    }

    /** First half of `reset`: the four caller-supplied strings and the payment type become null.
        `Reset` is split in two only to keep each proof small; the Java class has a single method. */
    method ClearConfiguration()
      modifies this`serialNumber, this`terminalNumber, this`merchantNumber, this`amount,
        this`paymentType
      ensures serialNumber == None && terminalNumber == None && merchantNumber == None
      ensures amount == None && paymentType == None
    {
      serialNumber, terminalNumber, merchantNumber, amount := None, None, None, None;
      paymentType := None;
    }

    /** Second half of `reset`: every result field becomes "". Not a method of the Java class;
        see `ClearConfiguration`. */
    method ClearResults()
      modifies this`stan, this`rrn, this`resultCode, this`dateTime, this`pan, this`balance,
        this`description
      ensures stan == "" && rrn == "" && resultCode == "" && dateTime == ""
      ensures pan == "" && balance == "" && description == ""
    {
      stan, rrn, resultCode, dateTime := "", "", "", "";
      pan, balance, description := "", "", "";
    }

    /** `simulateFailure`: result code "99", a failure text, no balance and no PAN; the
        trace numbers, the date and the configuration stay. */
    method SimulateFailure()
      modifies this`resultCode, this`description, this`balance, this`pan
      ensures State() == Failed(old(State())) && listener == old(listener)
    {
      resultCode := "99";
      description := "Transaction Failed";
      balance, pan := "", "";
    }

    /** `getMaskedPAN` on the current PAN: same length, and a position shows '*' exactly when it
        holds a digit with six digits before it and four after it. */
    function GetMaskedPAN(): (m: string)
      reads this
      ensures |m| == |pan|
      ensures forall k | 0 <= k < |m| :: m[k] == if PanMask.IsMasked(pan, k) then '*' else pan[k]
    {
      PanMask.MaskedPanRule(pan);
      PanMask.MaskedPan(pan)
    }

    /** A new trace number drawn from [100000, 999999], rendered in decimal: always six digits. */
    method GenerateNewStan()
      modifies this`stan
      ensures exists n :: 100000 <= n <= 999999 && stan == DecimalString(n)
      ensures |stan| == 6 && forall i | 0 <= i < 6 :: IsDigit(stan[i])
      ensures 100000 <= DecimalValue(stan) <= 999999
    {
      var n: nat :| 100000 <= n <= 999999;
      assert Pow10(5) == 100000 && Pow10(6) == 1000000;
      DecimalLength(n, 6);
      DecimalRoundTrip(n);
      stan := DecimalString(n);
    }

    /** `exportTransactionDataCSV` on the current fields: read back at the commas it is the
        twelve columns in order, when no column holds a comma. */
    function ExportTransactionDataCSV(): (line: string)
      reads this
      ensures (forall k | 0 <= k < 12 :: ',' !in CsvFields(State())[k]) ==>
        Split(line, ',') == CsvFields(State())
    {
      if forall k | 0 <= k < 12 :: ',' !in CsvFields(State())[k]
      then CsvReadsBack(State()); Csv(State())
      else Csv(State())
    }
  }

  /** The demo configuration of `start` (Main.java:146-152), a Sale of "1000" on COM3,
      validates whatever the result fields hold. */
  lemma SampleConfigurationValid(r: Record)
    requires r.portName == Some("COM3") && r.serialNumber == Some("003000009592")
    requires r.terminalNumber == Some("96090001") && r.merchantNumber == Some("017379960902001")
    requires r.paymentType == Some(Sale) && r.amount == Some("1000")
    ensures ParametersValid(r)
  {
    NotEmptyWhenFirstVisible("COM3");
    NotEmptyWhenFirstVisible("003000009592");
    NotEmptyWhenFirstVisible("96090001");
    NotEmptyWhenFirstVisible("017379960902001");
    NotEmptyWhenFirstVisible("1000");
  }
}
