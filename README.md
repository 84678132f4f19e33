# Invoice generator: the calendar, numbering and layout rules

This project models the computational core of a small script that writes a
monthly invoice as a PDF (`make_invoice.py`). Around the PDF drawing, the
script does a handful of exact integer and calendar computations, and those
are what the model states and proves:

- **Due date** (`last_day_of_month`): jump to day 28 of the current month,
  add four days to land early in the next month, then subtract that day
  number to get back to the current month's last day.
- **Business days** (`get_business_days_in_month`): walk one day at a time
  from the 1st to the month's last day and count the dates that fall on
  Monday to Friday.
- **Invoice number** (`get_invoice_number`): count the regular files in the
  invoices directory, add one, and write `"DVT"` followed by that number
  zero-padded to at least five digits.
- **Billable hours** (script body): the business days minus the time-off
  answer, when it parses as an integer, times eight hours.
- **Sections** (script body): the invoice information block always, then the
  provider, client, service-table and payment blocks, each only when its
  configuration key is present, in that fixed order.
- **Row height** (`InvoicePDF.add_table`): each of the (at most four) cells of
  a data row needs `max(1, floor(textWidth / colWidth) + 1)` lines of height
  6, and the row is drawn at the height of its tallest cell.

Dates follow Python's `datetime`: the proleptic Gregorian calendar with the
usual leap-year rule, an ordinal that makes 0001-01-01 day 1, weekday
`(ordinal + 6) % 7` with 0 for Monday, date comparison in (year, month, day)
order, and `date + timedelta(days=n)` that moves the ordinal and raises
OverflowError outside 0001-01-01 .. 9999-12-31. That last rule shows up in the
model: in December 9999 both the four-day jump of `last_day_of_month` and the
final step of the business-day loop (past December 31st) leave the
representable range, so `LastDayOfMonth` returns `None` and
`BusinessDaysInMonth` returns `Err(OverflowError)` for exactly that month and
for no other.

The clock, the console answer, the directory listing and the configuration
file are parameters: "today" is a `Date`, the parsed time-off answer is an
`Option<int>` (`None` for input that `int()` rejects), the listing is a
sequence of entries each flagged as regular file or not, and the loaded
configuration is the set of its top-level keys (the empty set when the file
is missing or is not valid JSON, the two errors `load_invoice_variables`
catches and answers with `{}`).
Text widths of table cells come from font metrics and are natural-number
inputs.

Files, one module each: `wrappers.dfy` (Option, Result, the two exceptions),
`calendar.dfy` (dates, ordinals, weekdays, day arithmetic),
`month_dates.dfy` (due date and business days), `invoice_number.dfy`,
`table_layout.dfy` and `invoice_script.dfy` (sections, time-off, and the
script body up to drawing).

The configuration key `hourly_rate` is never read (make_invoice.py:168 uses
the constant `HOURLY_RATE`). `{:05d}` gives at least five digits: past 99999
it widens instead of wrapping or failing.

## Model

| member | source | states |
|---|---|---|
| Calendar.Shift | make_invoice.py:98 | stepping `n` days from a real date gives a real date whose ordinal is `n` more |
| Calendar.OrdinalOrder | make_invoice.py:95 | comparing dates in (year, month, day) order is comparing their ordinals, and equal ordinals mean equal dates |
| Calendar.ShiftTo | make_invoice.py:84-85 | the date `n` days away is the unique real date whose ordinal is `n` more |
| Calendar.AddDays | make_invoice.py:84-85 | `date + timedelta(days=n)` succeeds exactly when the shifted date lies in years 1 to 9999, and then it is that date |
| MonthDates.ProbeLandsInNextMonth | make_invoice.py:84 | day 28 plus four days is day 1 to 4 (namely 32 minus the month's length) of the following month, of the following year for December |
| MonthDates.BackToMonthEnd | make_invoice.py:85 | subtracting day number `j` from day `j` of the next month gives the current month's last day |
| MonthDates.LastDayOfMonth | make_invoice.py:82-85 | the result is the current month's last day (day = month length, same year and month); it fails with overflow only in December 9999 |
| MonthDates.DayStep | make_invoice.py:98 | one day after day k is day k+1 inside the month, the 1st of the next month after the last day, and overflows only after 9999-12-31 |
| MonthDates.MonthEnd | make_invoice.py:90-91 | the loop's `last_day` (next month's 1st minus a day, or December 31st) is the true month end, so February has 29 days in leap years and 28 otherwise |
| MonthDates.CountIsSetSize | make_invoice.py:95-97 | the running count over days 1..k equals the number of those days that fall on Monday to Friday |
| MonthDates.WeekHasFiveWeekdays | make_invoice.py:96 | any seven consecutive days contain exactly five with `weekday() < 5` |
| MonthDates.RunGrowsSlowly | make_invoice.py:96-97 | extending a run of days by k adds between 0 and k business days |
| MonthDates.BusinessDaysAreARun | make_invoice.py:95-98 | the month's days 1..k are k consecutive ordinals starting at the 1st's |
| MonthDates.BusinessDayCountBounds | make_invoice.py:93-100 | every month has between 20 and 23 business days, never more than its length |
| MonthDates.LeapFebruary2024 | make_invoice.py:88-100 | February 2024 ends on the 29th, February 2023 on the 28th, and February 2024 has 21 business days |
| MonthDates.BusinessDaysInMonth | make_invoice.py:88-100 | the loop returns the number of Monday-to-Friday dates from the 1st to the month's end (20 to 23), visiting each day once; the counter never exceeds the days visited; it overflows only for December 9999 |
| InvoiceNumbering.FileCount | make_invoice.py:106 | the count of regular-file entries is at most the listing's length |
| InvoiceNumbering.FileCountAppend | make_invoice.py:106 | the file count of two listings together is the sum of their counts |
| InvoiceNumbering.Decimal | make_invoice.py:109 | the decimal form is a non-empty digit string without leading zero whose value is the number |
| InvoiceNumbering.LeadingZeros | make_invoice.py:109 | zeros put in front of a digit string keep its value |
| InvoiceNumbering.ZeroPad | make_invoice.py:109 | padding to width w gives max(length, w) digits with the same value |
| InvoiceNumbering.InvoiceNumber | make_invoice.py:102-109 | the number is "DVT" then at least five digits whose value is the regular-file count plus one, with no leading zero when wider than five |
| InvoiceNumbering.NonFilesIgnored | make_invoice.py:106 | an entry that is not a regular file, anywhere in the listing, leaves the number unchanged |
| InvoiceNumbering.NextFileAdvances | make_invoice.py:106-107 | one more regular file advances the number by one |
| InvoiceNumbering.FirstNumbers | make_invoice.py:102-109 | an empty directory gives "DVT00001" and four files give "DVT00005" |
| TableLayout.Zip | make_invoice.py:55 | `zip` pairs elements at equal positions up to the shorter length |
| TableLayout.HeaderCells | make_invoice.py:42-43 | at most four header labels are drawn, each with its column's width |
| TableLayout.LineCount | make_invoice.py:58 | a cell gets at least one line, and k lines exactly when the text width is at least (k-1) and below k column widths |
| TableLayout.CellHeight | make_invoice.py:59 | a cell's height is at least 6 and a multiple of 6 |
| TableLayout.MaxOf | make_invoice.py:61 | `max` returns one of the values and no value exceeds it |
| TableLayout.RowHeight | make_invoice.py:53-61 | the row height is a multiple of 6, at least 6, at least every one of the four cell heights and equal to one of them; rows with fewer than four cells raise IndexError |
| InvoiceScript.EmittedSections | make_invoice.py:151-172 | the invoice information comes first, a section appears exactly when it is the invoice information or its key is present, and sections follow the fixed order without repeats |
| InvoiceScript.Titles | make_invoice.py:151-172 | each emitted section contributes its own title, in order |
| InvoiceScript.OrderedSectionsUnique | make_invoice.py:151-172 | a sequence of sections is determined by which sections it holds once it is in the fixed order |
| InvoiceScript.MissingKeyOmitsOnlyItsSection | make_invoice.py:158-172 | removing one key removes its own section and leaves the rest unchanged |
| InvoiceScript.AllKeysGiveFullDocument | make_invoice.py:151-172 | with all four keys the document has all five sections in the fixed order |
| InvoiceScript.EmptyConfigurationKeepsInvoiceInfo | make_invoice.py:151-155 | an empty configuration still yields the invoice information section, and only it |
| InvoiceScript.ApplyTimeOff | make_invoice.py:134-140 | a parsed time-off `t` lowers the business days by `t`, with no lower bound (the hours go negative exactly when `t` exceeds them); a failed parse leaves them unchanged; hours are eight per remaining day |
| InvoiceScript.PrepareInvoice | make_invoice.py:124-172 | one run yields the due date (month end), the invoice number, the business days minus time-off, eight hours per day and the sections for the present keys; given the listing, the parsed answer, the key set with values that are mappings, and one reading of the clock, it fails only in December 9999, and then with OverflowError |

## Left out

- PDF drawing through `fpdf` (`header`, `add_section`, the cell, multi-cell, rectangle and cursor calls of `add_table`, page breaks, `output`): layout in a library whose source is not part of this model.
- `invoice_pdf.py`: a copy of the `InvoicePDF` class whose row-height rule is the one modelled from `make_invoice.py`.
- The row total of `add_table` (`float(row[1]) * float(row[2])` formatted with two decimals, written into `row[3]`) and `HOURLY_RATE`: floating-point arithmetic and rounding.
- TableLayout.RowHeight: takes text widths as natural numbers; the source gets floating-point widths from `get_string_width`, a font-metrics call, and truncates the quotient with `int()`.
- TableLayout.RowHeight: models one row; the loop over the rows of `data` only repeats it and moves the drawing cursor.
- `load_invoice_variables`, `os.listdir`, `os.path.isfile`, `input`, `print` and `datetime.today()`: I/O, replaced by parameters (the key set, the listing, the parsed answer, today's date).
- InvoiceScript.EmittedSections: takes the set of top-level keys of the configuration; a JSON file whose top level is not an object is not modelled.
- Uncaught I/O exceptions of the script: `os.listdir("invoices")` raises FileNotFoundError when the `invoices` directory does not exist (the script never creates it); opening or decoding the configuration file can raise PermissionError, IsADirectoryError or UnicodeDecodeError, which `load_invoice_variables` does not catch; `input()` can raise EOFError. The model receives the listing, the parsed answer and the key set as values, so these failures are outside it.
- InvoiceScript.PrepareInvoice: the script reads the clock separately at make_invoice.py:124, :125, :126 and, through `last_day_of_month`, at :84 (and again for the file name at :174); the model uses one date `today` for all of them, so it assumes the run does not cross midnight. A run that does can take the due date from one month and the business days from another, or the year from one day and the month from the next.
- InvoiceScript.PrepareInvoice: a present `provider_data`, `client_data` or `payment_data` whose value is not a JSON object (a string, a number, `null`) makes `add_section` raise AttributeError at `data.items()` (make_invoice.py:25), ending the run before the later sections and before any PDF is written; the model assumes those values are mappings and reports only the sections their keys switch on.
- `strftime` formatting of the issue date, the due date and the output file name: library formatting.
- MonthDates.BusinessDaysInMonth: requires a year in 1..9999 and a month in 1..12, the arguments `datetime` accepts; the source raises ValueError for others and only ever passes today's year and month.
