/**
 The body of the invoice script: which sections the document gets, in which
 order, and how many hours are billed once the time-off answer is in. The
 clock, the directory listing, the console answer and the configuration file
 are parameters; drawing is not modelled.
 */
module InvoiceScript {
  import opened Wrappers
  import opened Calendar
  import opened MonthDates
  import opened InvoiceNumbering

  /** Hours billed per business day. */
  const HoursPerDay := 8

  /** The blocks the script can add to the document. */
  datatype Section = InvoiceInfo | Provider | Client | ServiceTable | Payment

  /** Position of a section in the fixed order of the document. */
  function Rank(s: Section): nat {
    match s
    case InvoiceInfo => 0
    case Provider => 1
    case Client => 2
    case ServiceTable => 3
    case Payment => 4
  }

  /** Title printed above the section. */
  function Title(s: Section): string {
    match s
    case InvoiceInfo => "INFORMAÇÕES DA FATURA"
    case Provider => "DADOS DO PRESTADOR DE SERVIÇO"
    case Client => "DADOS DO CLIENTE"
    case ServiceTable => "DESCRIÇÃO DOS SERVIÇOS PRESTADOS"
    case Payment => "FORMA DE PAGAMENTO"
  }

  /** The configuration key whose presence switches a section on. */
  function Key(s: Section): string
    requires s != InvoiceInfo
  {
    match s
    case Provider => "provider_data"
    case Client => "client_data"
    case ServiceTable => "service_description"
    case Payment => "payment_data"
  }

  /** The invoice information is always there; every other section needs its key. */
  predicate Enabled(s: Section, keys: set<string>) {
    s == InvoiceInfo || Key(s) in keys
  }

  predicate InDocumentOrder(sections: seq<Section>) {
    forall i, j :: 0 <= i < j < |sections| ==> Rank(sections[i]) < Rank(sections[j])
  }

  /**
   The sections the script adds, given the keys present in the loaded
   configuration: the invoice information first, then each of provider,
   client, service table and payment whose key is present, in that order.
   */
  function EmittedSections(keys: set<string>): (r: seq<Section>)
    ensures |r| >= 1 && r[0] == InvoiceInfo
    ensures forall s :: s in r <==> Enabled(s, keys)
    ensures InDocumentOrder(r)
  {
    [InvoiceInfo]
    + (if "provider_data" in keys then [Provider] else [])
    + (if "client_data" in keys then [Client] else [])
    + (if "service_description" in keys then [ServiceTable] else [])
    + (if "payment_data" in keys then [Payment] else [])
  }

  function Titles(sections: seq<Section>): (titles: seq<string>)
    ensures |titles| == |sections|
    ensures forall i :: 0 <= i < |sections| ==> titles[i] == Title(sections[i])
  {
    if sections == [] then [] else [Title(sections[0])] + Titles(sections[1..])
  }

  /** The order and the set of sections together fix the sequence. */
  lemma {:induction false} OrderedSectionsUnique(a: seq<Section>, b: seq<Section>)
    requires InDocumentOrder(a) && InDocumentOrder(b)
    requires forall s :: s in a <==> s in b
    ensures a == b
    decreases |a|
  {
    assert a != [] ==> a[0] in b;
    assert b != [] ==> b[0] in a;
    if a != [] && b != [] {
      assert a[0] == b[0];
      forall s ensures s in a[1..] <==> s in b[1..] {
        if s in a[1..] {
          assert s in b && Rank(a[0]) < Rank(s);
        }
        if s in b[1..] {
          assert s in a && Rank(b[0]) < Rank(s);
        }
      }
      OrderedSectionsUnique(a[1..], b[1..]);
    }
  }

  /** In document order, everything after the head ranks above it. */
  lemma OrderedTail(sections: seq<Section>)
    requires sections != []
    ensures InDocumentOrder(sections) ==> forall t :: t in sections[1..] ==> Rank(sections[0]) < Rank(t)
  {
  }

  function Without(sections: seq<Section>, s: Section): (r: seq<Section>)
    ensures forall t :: t in r <==> t in sections && t != s
    ensures InDocumentOrder(sections) ==> InDocumentOrder(r)
  {
    if sections == [] then []
    else if sections[0] == s then Without(sections[1..], s)
    else
      OrderedTail(sections);
      [sections[0]] + Without(sections[1..], s)
  }

  /** A missing key drops its own section and leaves the others as they were. */
  lemma MissingKeyOmitsOnlyItsSection(keys: set<string>, s: Section)
    requires s != InvoiceInfo
    ensures EmittedSections(keys - {Key(s)}) == Without(EmittedSections(keys), s)
  {
    OrderedSectionsUnique(EmittedSections(keys - {Key(s)}), Without(EmittedSections(keys), s));
  }

  /** With all four keys the document has all five sections in the fixed order. */
  lemma AllKeysGiveFullDocument(keys: set<string>)
    requires {"provider_data", "client_data", "service_description", "payment_data"} <= keys
    ensures EmittedSections(keys) == [InvoiceInfo, Provider, Client, ServiceTable, Payment]
  {
  }

  /** An unreadable configuration loads as an empty mapping: only the invoice information remains. */
  lemma EmptyConfigurationKeepsInvoiceInfo()
    ensures Titles(EmittedSections({})) == ["INFORMAÇÕES DA FATURA"]
  {
  }

  /** The days taken off: the parsed answer, or none when it did not parse. */
  function TimeOffDays(timeOff: Option<int>): int {
    if timeOff.Some? then timeOff.value else 0
  }

  /**
   The time-off block: a parsed answer `t` lowers the business days by `t`,
   with no lower bound; a failed parse (None) leaves them unchanged. The
   quantity billed is eight hours per remaining business day.
   */
  method ApplyTimeOff(businessDays: int, timeOff: Option<int>) returns (days: int, quantity: int)
    ensures days == businessDays - TimeOffDays(timeOff)
    ensures quantity == HoursPerDay * days
    ensures timeOff.Some? ==> (quantity < 0 <==> timeOff.value > businessDays)
  {
    days := businessDays;
    match timeOff {
      case Some(t) =>
        days := days - t;
        quantity := days * HoursPerDay;
      case None =>
        quantity := days * HoursPerDay;
    }
  }

  /** What one run of the script computes before drawing. */
  datatype Invoice = Invoice(
    number: string,
    dueDate: Date,
    businessDays: int,
    quantity: int,
    sections: seq<Section>)

  /**
   The script body up to drawing, with today's date, the invoices directory
   listing, the parsed time-off answer and the keys of the loaded
   configuration passed in, one reading of the clock for the whole run, and
   configuration values that are mappings. Given those, it fails only in
   December 9999, where the due-date computation overflows.
   */
  method PrepareInvoice(today: Date, listing: seq<Entry>, timeOff: Option<int>, configKeys: set<string>)
    returns (r: Result<Invoice>)
    requires InRange(today)
    ensures r.Err? <==> today.year == MaxYear && today.month == 12
    ensures r.Err? ==> r.error == OverflowError
    ensures r.Ok? ==> r.value.dueDate == Date(today.year, today.month, DaysInMonth(today.year, today.month))
    ensures r.Ok? ==> r.value.number == InvoiceNumber(listing)
    ensures r.Ok? ==> r.value.businessDays == BusinessDayCount(today.year, today.month) - TimeOffDays(timeOff)
    ensures r.Ok? ==> r.value.quantity == HoursPerDay * r.value.businessDays
    ensures r.Ok? ==> r.value.sections == EmittedSections(configKeys)
  {
    var expirationDate := LastDayOfMonth(today);
    if expirationDate.None? {
      return Err(OverflowError);
    }
    // The month's business days cannot overflow once its last day was reached.
    var businessDays := BusinessDaysInMonth(today.year, today.month);
    var invoiceNumber := InvoiceNumber(listing);
    var days, quantity := ApplyTimeOff(businessDays.value, timeOff);
    var sections := EmittedSections(configKeys);
    r := Ok(Invoice(invoiceNumber, expirationDate.value, days, quantity, sections));
  }
}
