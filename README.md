# Billing core of the Clockify-to-invoice generator, in Dafny

This project models the billing logic of a small invoicing program
(`main.py`). The program turns a day's uninvoiced time entries into one
invoice per client. The model covers these parts:

- **Invoice numbers** (`invoice_number.dfy`). `FormatInvoiceNum` pads the
  counter to six characters and splits it three + space + three.
  `InvoiceCounter` is a class whose `stored` field stands for the JSON
  counter file. `Increment` stores the counter + 1 and returns the old
  value, formatted. For counters from 0 to 999999 the format has an
  inverse, `ParseInvoiceNum`, and round trips are proved in both
  directions. Above six digits the source keeps only the first six
  characters, so counter 1000000 gets the same number as counter 100000.
  `FormatInvoiceNumTruncatesAboveSixDigits` states this.
- **Rounding and pricing** (`pricing.dfy`, `work_item.dfy`). Hours are
  rounded up to a whole number of billing steps (minutes), then multiplied
  by the rate. `WorkItem` is a class whose `roundedHours` and `total` start
  as `None`. `SetRoundedHours` and `SetTotal` fill them in place.
- **Clients and invoices** (`client.dfy`). The `Client` constructor takes
  the next invoice number and prices every work item in place with the
  client's step. `GetTotalDue` sums the item totals. `BuildInvoice` holds
  the arithmetic of `generate_invoice`:
  - the exchange rate is exactly 1 for `usd`, with no lookup;
  - otherwise the rate comes from an injected lookup, and a failed lookup
    fails the invoice;
  - the converted total is the total times the rate;
  - the due date is the invoice date plus the days until due.
- **Aggregation** (`aggregation.dfy`). `GetWorkItems` keeps the entries of
  the client's projects and groups them by exact description. It emits the
  groups in ascending description order (Python's code-point order on
  strings). `MergeTimeEntries` sums each group's seconds into hours and
  takes the name and rate (minor units / 100) from the project of the
  group's first entry.
- **Sequences** (`sequences.dfy`). Python's `sum` over a list, and the
  facts about it that the totals use: additivity, order independence and
  monotonicity.
- **Filters** (`markup.dfy`). `MdToHtml` is the one-line markdown filter.
  `GetCurrencySymbol` returns `None` where the source raises.

Modelling choices:
- Hours, rates and money are exact `real`s.
- Durations are integer seconds.
- Dates are integer day numbers.
- The exchange-rate service is a function parameter.
- The fields that the source never reassigns after construction are
  `const`: a work item's project, description, rate and hours, and every
  field of a client. Only `roundedHours`, `total` and the counter change.
- The pound symbol is stored in the source file as the two characters
  U+00C2 U+00A3 ("Â£"). The model returns those two characters.

The code groups entries by description alone. When two projects of one
client share a description, their entries form one item, named and priced
from the project of the group's first entry. `WorkItemLineFields` and
`WorkItemLinesCoverClientDescriptions` state this.

## Model

| member | source | states |
|---|---|---|
| `InvoiceNumber.NatToDecimalDigits` | main.py:20 | the decimal string of n is all digits, denotes n, and has no leading zero (10^(len-1) <= n < 10^len) |
| `InvoiceNumber.IntToDecimal` | main.py:20 | Python's `str` of an int: a minus sign before the digits of a negative number; `NatToDecimalDigits` states the digits' properties, and `ParseFormatInvoiceNum` and `FormatInvoiceNumTruncatesAboveSixDigits` what the format makes of them |
| `InvoiceNumber.PadLeft` | main.py:20 | `'{:0>6}'` padding: the width is reached with zeros on the left and the original string is the suffix |
| `InvoiceNumber.FormatInvoiceNum` | main.py:19-21 | every invoice number has seven characters with a space in the middle |
| `InvoiceNumber.ParseInvoiceNum` | main.py:19-21 | the inverse of the format; any parsed value is below 1000000 |
| `InvoiceNumber.ParseFormatInvoiceNum` | main.py:19-21 | for 0 <= n <= 999999 the format is three digits, a space, three digits, and they spell n zero-padded |
| `InvoiceNumber.FormatParseInvoiceNum` | main.py:19-21 | every well-formed "ddd ddd" string is the format of the number it spells |
| `InvoiceNumber.FormatInvoiceNumInjective` | main.py:19-21 | distinct counters from 0 to 999999 never share an invoice number |
| `InvoiceNumber.FormatInvoiceNumExamples` | main.py:19-21 | 42 gives "000 042", 7 gives "000 007", 123456 gives "123 456" |
| `InvoiceNumber.FormatInvoiceNumTruncatesAboveSixDigits` | main.py:20-21 | counters 1000000 and 100000 both format as "100 000" |
| `InvoiceNumber.InvoiceCounter.Increment` | main.py:24-29 | the stored counter becomes its old value + 1 and the result is the format of the old value |
| `InvoiceNumber.IssueTwo` | main.py:24-29 | two successive issues from a counter in range advance it by two and give different numbers |
| `Markup.Strip` | main.py:47 | Python's `s[k:-k]` for k >= 1: length len-2k, or empty when the line is shorter than 2k |
| `Markup.MdToHtml` | main.py:45-51 | the line comes back unchanged exactly when it is neither `**`-delimited nor `_`-delimited |
| `Markup.MdToHtmlBold` | main.py:46-47 | `**x**` becomes `<strong>x</strong>` for every x |
| `Markup.MdToHtmlItalic` | main.py:48-49 | `_x_` becomes `<em>x</em>` for every x |
| `Markup.MdToHtmlShortLines` | main.py:46-49 | "**" and "***" give empty strong tags, and "_" gives empty em tags |
| `Markup.GetCurrencySymbol` | main.py:32-38 | a symbol exists exactly for "gbp" and "usd" and is non-empty; any other code fails |
| `Pricing.Ceil` | main.py:107 | math.ceil: the least integer not below x |
| `Pricing.RoundUpHours` | main.py:99-107 | the result times 60 is a multiple of the step, at least the hours, less than one step above them, and 0 for 0 hours |
| `Pricing.RoundUpHoursIsLeast` | main.py:99-107 | every step boundary at or above the hours is at or above the result (least such multiple) |
| `Pricing.RoundUpHoursIdempotent` | main.py:99-107 | rounding a rounded value changes nothing |
| `Pricing.RoundUpHoursMonotonic` | main.py:99-107 | more hours never round to fewer |
| `Pricing.RoundUpHoursExample` | main.py:106-107 | 1.02 hours with a 15-minute step round to 1.25, and 0 hours round to 0 |
| `Pricing.ItemTotal` | main.py:109-117 | get_total as a value: rate times the rounded hours; `ItemTotalBounds` and `ItemTotalExample` state its properties |
| `Pricing.ItemTotalBounds` | main.py:109-117 | with a non-negative rate the total lies between rate x hours and rate x (hours + step/60) |
| `Pricing.ItemTotalExample` | main.py:109-117 | 1.02 hours at 100 per hour with a 15-minute step bill 125 |
| `Sequences.Sum` | main.py:145 | Python's `sum`, left to right from 0; `SumAppend`, `SumPermutation` and `SumMonotonic` state that it is additive, order-independent and monotonic |
| `Pricing.Total` | main.py:144-145 | get_total_due as a value: the sum of every line's total; `TotalBounds`, `TotalAppend` and `TotalPermutation` state its properties |
| `Pricing.TotalBounds` | main.py:144-145 | with non-negative rates the total due is at least the sum of rate x hours over the lines and at most that plus rate x step / 60 for each line |
| `Pricing.TotalAppend` | main.py:144-145 | the total of two lists of lines is the sum of their totals |
| `Pricing.TotalPermutation` | main.py:144-145 | the total due does not depend on the order of the items |
| `WorkItems.WorkItem.constructor` | main.py:93-97 | a new item holds the four given values and no rounded hours or total |
| `WorkItems.WorkItem.GetRoundedHours` | main.py:99-107 | the item's hours rounded up: on a step boundary, not below the hours, and less than one step above |
| `WorkItems.WorkItem.GetTotal` | main.py:109-117 | rate times the rounded hours, within one step's worth of rate x hours |
| `WorkItems.WorkItem.SetRoundedHours` | main.py:119-120 | caches the rounded hours, and no other field changes |
| `WorkItems.WorkItem.SetTotal` | main.py:122-123 | caches the total, and no other field changes |
| `Aggregation.LexLessIrreflexive` | main.py:185 | no description sorts before itself |
| `Aggregation.LexLessTransitive` | main.py:185 | the string order is transitive |
| `Aggregation.LexLessTotal` | main.py:185 | of two different descriptions one sorts first |
| `Aggregation.LexLess` | main.py:185 | Python's `<` on strings, by code point, that `sorted` uses; `LexLessIrreflexive`, `LexLessTransitive` and `LexLessTotal` make it a strict total order |
| `Aggregation.InsertMembers` | main.py:185 | the insertion holds exactly the old elements and the new one |
| `Aggregation.InsertAscending` | main.py:185 | inserting into a strictly ascending list keeps it strictly ascending |
| `Aggregation.AscendingUnique` | main.py:185 | two strictly ascending lists with the same elements are equal, so `sorted(set(...))` is determined |
| `Aggregation.SortedDescriptions` | main.py:185 | `sorted(set(...))` of the descriptions; `SortedDescriptionsMembers`, `SortedDescriptionsAscending` and `AscendingUnique` state that it is exactly the occurring descriptions, ascending, and the only such list |
| `Aggregation.SortedDescriptionsMembers` | main.py:185 | the list holds exactly the descriptions of the entries |
| `Aggregation.SortedDescriptionsAscending` | main.py:185 | the list is strictly ascending, so no description repeats |
| `Aggregation.ClientProjectIds` | main.py:183 | the ids of the client's projects; `ForeignEntryDropped` and `WorkItemLinesCoverClientDescriptions` state what membership in it decides |
| `Aggregation.Keep` | main.py:184 | the order-preserving filter on project ids; `KeepMembers`, `KeepAppend` and `KeepSingle` state which entries it keeps, in what order and how often |
| `Aggregation.KeepSingle` | main.py:184 | one entry is kept exactly once when its project id is in the set, and dropped otherwise |
| `Aggregation.ClientEntries` | main.py:183-184 | the entries of the client's projects; `ClientEntriesHaveProjects` and `ForeignEntryDropped` state its properties |
| `Aggregation.KeepMembers` | main.py:184 | the filter keeps exactly the entries whose project id is in the set |
| `Aggregation.KeepAppend` | main.py:184 | filtering a concatenation is concatenating the filtered parts |
| `Aggregation.WithDescription` | main.py:186 | the group of one description; `WithDescriptionMembers`, `WithDescriptionAppend` and `WithDescriptionSingle` fix it as the order-preserving filter, repeats included |
| `Aggregation.WithDescriptionSingle` | main.py:186 | one entry is its own group exactly when it carries the description |
| `Aggregation.WithDescriptionMembers` | main.py:186 | a group holds exactly the entries with that description |
| `Aggregation.WithDescriptionAppend` | main.py:186 | the group of a concatenation is the concatenation of the groups, so every entry with the description is kept, repeats included, in entry order |
| `Aggregation.SumSecondsAppend` | main.py:175-176 | the seconds of a concatenation are the seconds of the parts |
| `Aggregation.SumSeconds` | main.py:175-178 | the `delta` sum of a group's durations; `SumSecondsAppend` states it is additive, and `MergeTimeEntries`' loop invariant ties the loop to it |
| `Aggregation.FindProjectFirst` | main.py:187 | `next(...)`: the first project with the id, or None exactly when no project has it |
| `Aggregation.FindProject` | main.py:187 | `next(...)` as a value; `FindProjectFirst` states that it finds the first project with the id, or None exactly when none has it |
| `Aggregation.ClientEntriesHaveProjects` | main.py:183-187 | the project lookup never fails for a kept entry |
| `Aggregation.DescriptionMergeable` | main.py:185-187 | the group of a description that occurs is non-empty and the project of its first entry is found |
| `Aggregation.ClientDescriptionsMergeable` | main.py:183-187 | every sorted description of the client's entries has a non-empty group whose first project is found |
| `Aggregation.GroupLine` | main.py:186-188 | one pass: the merged line of a description's group with the project of its first entry; `WorkItemLineFields` states its fields |
| `Aggregation.MergedLines` | main.py:185-188 | the loop's lines, one per description in order; `MergedLineAt` and `MergedLinesHours` state its properties |
| `Aggregation.WorkItemLinesFollowDescriptions` | main.py:185-188 | one item per sorted description of the client's entries, in that order |
| `Aggregation.WorkItemLinesAscending` | main.py:185-188 | item descriptions are strictly ascending, so there is exactly one item per description |
| `Aggregation.WorkItemLinesCoverClientDescriptions` | main.py:182-188 | an item exists for a description exactly when an entry of one of the client's projects carries it |
| `Aggregation.WorkItemLineFields` | main.py:171-188 | each item's hours are the group's summed seconds / 3600; its name and its rate (minor units / 100) come from the project of the group's first entry |
| `Aggregation.MergeLine` | main.py:171-179 | merge_time_entries as a value: the project's name, the first entry's description, amount / 100 and the group's seconds / 3600; `WorkItemLineFields` and `MergeTimeEntries` state these fields |
| `Aggregation.WorkItemLines` | main.py:182-188 | get_work_items as a value; `WorkItemLinesFollowDescriptions`, `WorkItemLinesAscending`, `WorkItemLinesCoverClientDescriptions`, `WorkItemLineFields` and `WorkItemHoursConserved` state its properties |
| `Aggregation.GroupSecondsCover` | main.py:185-186 | over distinct descriptions that cover every entry, the groups' seconds add up to all the seconds |
| `Aggregation.WorkItemHoursConserved` | main.py:176-188 | no time is lost or counted twice: the items' hours add up to the seconds of all the client's entries / 3600, repeated entries included |
| `Aggregation.ForeignEntryDropped` | main.py:182-184 | inserting an entry of another client's project anywhere leaves the client's entries unchanged |
| `Aggregation.ForeignEntryIgnored` | main.py:182-184 | inserting an entry of another client's project anywhere leaves the items unchanged |
| `Aggregation.AggregationExample` | main.py:171-188 | design 1h + design 30m + dev 2h at 10000 minor units give ("design", 1.5h) then ("dev", 2h), both at rate 100 |
| `Aggregation.MergedLineAt` | main.py:185-188 | the lines are as many as the descriptions, and the k-th is the merged group of the k-th description |
| `Aggregation.WorkItemLinesAt` | main.py:185-188 | the k-th item is the merge of the group of the k-th sorted description, with the project of the group's first entry |
| `Aggregation.MergeDescription` | main.py:186-188 | one pass of the loop: a new, unrounded item that is the merged group of the description |
| `Aggregation.MergeTimeEntries` | main.py:171-179 | the loop sums the group's seconds; the new unrounded item has the project's name, the first entry's description, rate = amount / 100 and hours = seconds / 3600 |
| `Aggregation.MergeAll` | main.py:185-188 | the loop: one new, unrounded item per description, whose views are the merged groups of the descriptions in order |
| `Aggregation.GetWorkItems` | main.py:182-188 | the new, unrounded items hold exactly the lines of the aggregation, in order |
| `Clients.BuildInvoice` | main.py:150-163 | fails exactly when a non-usd lookup fails; otherwise the record carries the given number, client name and date, rate is 1 for usd or the looked-up rate, converted = total x rate, and its due date is its own date + days |
| `Clients.BaseCurrencyNeedsNoLookup` | main.py:151-153 | for usd the invoice is the same whatever the lookup, even one that always fails; rate is 1 and converted equals total |
| `Clients.TotalIsCachedTotal` | main.py:137-145 | recomputing the item totals gives the sum of the cached totals |
| `Clients.PriceItems` | main.py:137-139 | every item gets the rounded hours and the total for the step |
| `Clients.Client.constructor` | main.py:128-139 | the counter moves by one, the invoice number is its old value formatted, every item is priced with the client's step, and the client's fields are the given name, items and profile settings |
| `Clients.Client.GetTotalDue` | main.py:144-145 | once constructed, the total due equals the sum of the item totals |
| `Clients.Client.GenerateInvoice` | main.py:147-166 | fails exactly when a non-usd lookup fails; otherwise the record carries the client's number and name and the given date, the work total is the total due, the rate is 1 for usd or the looked-up rate, converted = total x rate, and the due date is the date + days until due |

## Left out

- HTTP calls to the time-tracking and exchange-rate services (`clockify_get`, `clockify_user_get`, `wise_get`, `get_exchange_rate_from_usd`, main.py:67-86) are network I/O. The exchange rate is an injected function `string -> Result<real>`.
- Loading `profile.json` (main.py:63-64) and the profile lookups are file I/O and global configuration. The client's settings come in as a `ClientProfile` value. A missing client or bank account (a `KeyError` in the source) is not modelled.
- The JSON read and write in `increment_invoice_num` are file I/O. A missing or corrupt counter file is not modelled, and the counter is an integer field. Locking against concurrent runs is out of scope.
- Templating, filter registration, PDF rendering, `slugify`, `main` and `get_clients` (main.py:13-16, 58-61, 191-208) are rendering, I/O and process plumbing.
- `format_date` and `format_money` (main.py:41-42, 54-55) are thin wrappers over `strftime` and Python's format-spec rounding.
- `isodate.parse_duration` (main.py:177) is a library call. Entries carry their duration in whole seconds.
- `date.today()` (main.py:155) reads the environment. The invoice date is a parameter. `get_time_until_due` (main.py:141-142) is folded into the due-date addition.
- Floating-point artefacts of `hours * 60` and the 28-digit precision of Python's `Decimal` division are not modelled. All arithmetic is exact.
- `invoice_data.update(profile)`, the bank-account entry, and the `client` and `work_items` entries (main.py:160-161, 164, 167) hand the profile data, the client object and its items to the template for rendering. They are not part of `InvoiceRecord`, which keeps only the client's name.
- Pricing.RoundUpHours: requires a positive step. A zero step raises `ZeroDivisionError` in the source, and a negative step is outside the billing profile's meaning.
- Clients.Client.constructor: requires a positive billing step, as do `GetTotalDue` and `GenerateInvoice`. In the source a step of 0 with no work items constructs a client without error, and a step of 0 with items consumes an invoice number (main.py:132) and then raises `ZeroDivisionError` (main.py:138); neither case is modelled.
- Aggregation.MergeTimeEntries: requires a non-empty group. The source raises `IndexError` on an empty one, and `get_work_items` never passes one.
