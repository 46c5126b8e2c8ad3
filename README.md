# ZeiPilote data layer in Dafny

ZeiPilote is a browser-only management tool for freelancers. It keeps all of its
data (clients, projects, invoices and a business profile) as one JSON aggregate in the
`zeipilote-data` localStorage slot. Every change follows the same cycle: read the whole
aggregate, change it, and write it back. This project models that data layer and
proves what it does:

- `store.dfy`, module `Store`: the slot as a class `DataStore` with `LoadData`,
  `SaveData`, `UpdateProfession`, `ImportData` and the three deletes (`DeleteClient`
  also removes the client's projects and invoices). It also holds the pure queries:
  revenue of paid invoices, client by id, and projects and invoices of a client.
- `invoice_form.dfy`, `project_form.dfy`, `client_form.dfy`: the submit handlers of the
  three forms. Each one replaces the first record with the edited id in place, or
  appends a new record, and then saves; an unreadable date stops the handler of the
  invoice and project forms before anything is saved. The invoice form also computes the total from
  its lines. The client form checks the e-mail pattern, which is proved equal to a
  grammar reading of the regular expression.
- `pdf_export.dfy`, module `PdfExport`: the monthly report. This covers the filter on
  the current month and its statistics, and the revenue per month of the chart, as the
  imperative reduce over a key list and an accumulator map. It also covers the three
  tables with their `'N/A'` and `0` defaults, the currency and locale defaults, and the
  `Page i sur N` footer loop over a jsPDF-like page structure.
- `landing.dfy`, module `Landing`: the landing page as a class `HomePage`. It has the
  profile form, which refuses a field that is blank after `trim()`, and the import of
  a backup file, which writes the slot only when its stricter shape check passes.
- `types.dfy` (the report's record types), `browser.dfy` (the slot, the outcome of
  `JSON.parse`, and a document's top-level keys), `wrappers.dfy` (`Option`) and
  `seqs.dfy` (filter, find, replace-first, index-of, dedup, subsequence): shared
  definitions.

The repository declares two invoice schemas. The store and the forms write invoices
with an `amount` and a business profile `{profession, lastUpdated}`
(src/data/store.ts). The PDF export reads the declarations of src/types/index.ts,
where an invoice has a `total`, a project has a `budget`, and the business profile has
a `name`; the landing page imports nothing from there, but its check follows that
schema. The model keeps the two apart: module `Store` for the
first, module `Types` for the second. Invoices saved by the invoice form have no
`total`, so the report's sums over such invoices are not numbers in the running
application; the model's report is stated over `Types.Invoice.total`, as the export
code reads it.

Dates are opaque strings. The report takes the reading of a date as parameters:
`monthOf` gives its month and year (None for a date JavaScript cannot read), `labelOf`
its French month-year label, and `dateText` its French short form. The invoice and
project forms take `iso` for `new Date(x).toISOString()`, which gives None where that
call throws a RangeError. Fresh ids (`crypto.randomUUID()`) and the
current time are parameters as well. `JSON.stringify` followed by `JSON.parse` is
taken to be the identity, so a slot holds the aggregate itself.

## Model

| member | source | states |
|---|---|---|
| Store.DataStore.constructor | src/data/store.ts:44-52 | the defaults are empty collections and the profession "Développeur Web", stamped once at load time |
| Store.DataStore.LoadData | src/data/store.ts:54-65 | the defaults without a window, for an empty slot and for an unparseable slot; otherwise exactly the stored aggregate |
| Store.DataStore.SaveData | src/data/store.ts:67-70 | with a window the slot holds the aggregate and the next load returns it; without one nothing changes |
| Store.WithProfession | src/data/store.ts:72-77 | the new profession and time stamp are set, and clients, projects and invoices are unchanged |
| Store.DataStore.UpdateProfession | src/data/store.ts:72-77 | the slot receives the loaded aggregate with the new profession and time stamp; the collections read back unchanged |
| Store.HasTopLevelKeys | src/data/store.ts:170 | the import check of the store: all four top-level keys hold a truthy value |
| Store.ImportedData | src/data/store.ts:166-178 | a text is accepted exactly when it parses and all four top-level keys are present and truthy (empty arrays pass); the four stored collections and profile are exactly the parsed ones |
| Store.DataStore.ImportData | src/data/store.ts:166-178 | returns true exactly on acceptance and then stores the parsed value; on refusal the slot is untouched |
| Store.WithoutClient | src/data/store.ts:180-187 | no client with the id and no project or invoice of that client remain; every other record stays, as often and in the same order; the business profile is unchanged |
| Store.DataStore.DeleteClient | src/data/store.ts:180-187 | the slot receives the loaded aggregate with the client and its projects and invoices removed |
| Store.DeleteClientIdempotent | src/data/store.ts:180-187 | deleting the same client a second time changes nothing |
| Store.WithoutProject | src/data/store.ts:189-193 | exactly the projects with the id go, in order, and no other collection changes |
| Store.DataStore.DeleteProject | src/data/store.ts:189-193 | the slot receives the loaded aggregate without the project |
| Store.DeleteProjectIdempotent | src/data/store.ts:189-193 | a second delete with the same id changes nothing |
| Store.WithoutInvoice | src/data/store.ts:195-199 | exactly the invoices with the id go, in order, and no other collection changes |
| Store.DataStore.DeleteInvoice | src/data/store.ts:195-199 | the slot receives the loaded aggregate without the invoice |
| Store.DeleteInvoiceIdempotent | src/data/store.ts:195-199 | a second delete with the same id changes nothing |
| Store.RevenueTotal | src/data/store.ts:201-205 | the reduce over the invoices, left to right, adding the amount of each paid one and nothing for the others |
| Store.RevenueIsSumOfPaid | src/data/store.ts:201-205 | the revenue equals the sum of the amounts of exactly the paid invoices |
| Store.RevenueTotalAppend | src/data/store.ts:201-205 | the revenue of two lists put together is the sum of their revenues |
| Store.UnpaidAddsNothing | src/data/store.ts:201-205 | a draft or sent invoice, wherever it is inserted, leaves the revenue unchanged |
| Store.RevenueOfOne | src/data/store.ts:201-205 | one invoice contributes its amount when paid and 0 otherwise |
| Store.ClientById | src/data/store.ts:207-209 | none exactly when no client has the id; otherwise a client with the id that no earlier client shares |
| Store.ProjectsByClientId | src/data/store.ts:211-213 | exactly the projects of that client, each as often as before, in original order |
| Store.InvoicesByClientId | src/data/store.ts:215-217 | exactly the invoices of that client, each as often as before, in original order |
| InvoiceForm.CalculateTotal | src/components/forms/InvoiceForm.tsx:52-54 | the reduce adding quantity times price of each line, left to right, from 0 |
| InvoiceForm.CalculateTotalAppend | src/components/forms/InvoiceForm.tsx:52-54 | the total of two lists of lines put together is the sum of their totals |
| InvoiceForm.CalculateTotalNonNegative | src/components/forms/InvoiceForm.tsx:176-191 | lines the form accepts (a description, quantity at least 1, price at least 0) never give a negative total |
| InvoiceForm.BlankItemAddsNothing | src/components/forms/InvoiceForm.tsx:155 | the line `{'', 1, 0}` the add button appends adds nothing to the total |
| InvoiceForm.NewInvoice | src/components/forms/InvoiceForm.tsx:59-65 | nothing is built when either date cannot be read; otherwise the amount is the total of the submitted lines, the id is the edited one (unless empty) or the fresh one, and the dates are the ISO forms |
| InvoiceForm.InvoicesAfterSubmit | src/components/forms/InvoiceForm.tsx:67-74 | creation appends exactly the new invoice; an edit keeps the length, replaces the first invoice with the edited id and keeps every other one; an edit of a vanished id changes nothing |
| InvoiceForm.SubmitInvoice | src/components/forms/InvoiceForm.tsx:56-78 | when a date cannot be read the slot is untouched and no record is handed back; otherwise only the invoices of the loaded aggregate change, as above, and the result is saved |
| ProjectForm.NewProject | src/components/forms/ProjectForm.tsx:43-48 | nothing is built when the start date, or a given end date, cannot be read; otherwise the id is the edited one (unless empty) or the fresh one, and the end date is absent exactly when its input was empty |
| ProjectForm.ProjectsAfterSubmit | src/components/forms/ProjectForm.tsx:50-57 | creation appends exactly the new project; an edit keeps the length, replaces the first project with the edited id and keeps the others; an unknown id changes nothing |
| ProjectForm.SubmitProject | src/components/forms/ProjectForm.tsx:40-61 | when a date cannot be read the slot is untouched and no record is handed back; otherwise only the projects of the loaded aggregate change, as above, and the result is saved |
| ClientForm.IsValidEmail | src/components/forms/ClientForm.tsx:85 | the e-mail pattern, computed: a local part before the first `@`, and after it a domain run before the last `.` followed by two letters or more |
| ClientForm.EmailCheckMatchesPattern | src/components/forms/ClientForm.tsx:85 | the computed check accepts exactly the strings that split into local part, `@`, domain run, `.` and two letters or more, as the pattern describes |
| ClientForm.ValidEmailIsSplit | src/components/forms/ClientForm.tsx:85 | an accepted e-mail has such a split |
| ClientForm.SplitIsValidEmail | src/components/forms/ClientForm.tsx:85 | every such split is accepted |
| ClientForm.ValidEmailHasOneAt | src/components/forms/ClientForm.tsx:85 | an accepted e-mail holds exactly one `@` |
| ClientForm.FormAccepted | src/components/forms/ClientForm.tsx:67-88 | the rules react-hook-form applies: a required name, a required e-mail, and the pattern |
| ClientForm.FormAcceptedIff | src/components/forms/ClientForm.tsx:67-88 | react-hook-form's validation passes exactly when the name is filled in and the e-mail matches the pattern |
| ClientForm.NewClient | src/components/forms/ClientForm.tsx:37-41 | on an edit the id and the creation time are the edited client's (each unless empty); otherwise the fresh id and the submission time |
| ClientForm.ClientsAfterSubmit | src/components/forms/ClientForm.tsx:43-52 | creation appends exactly the new client; an edit keeps the length, replaces the first client with the edited id and keeps the others; an unknown id changes nothing |
| ClientForm.SubmitClient | src/components/forms/ClientForm.tsx:34-56 | only the clients of the loaded aggregate change (no projects or invoices are touched), and the result is saved in every case |
| PdfExport.SumTotals | src/components/ui/PDFExport.tsx:31 | the reduce adding the `total` of each invoice, left to right, from 0 |
| PdfExport.LargestTotal | src/components/ui/PDFExport.tsx:36 | the reduce with `Math.max`, starting from 0 |
| PdfExport.GenerateMonthlyReport | src/components/ui/PDFExport.tsx:19-43 | the month's invoices are exactly those dated in the current month and year, in order; the count, the sum of their totals, the average, and a largest value that is at least 0, at least every total, and either 0 or one of them |
| PdfExport.Average | src/components/ui/PDFExport.tsx:33-35 | the average times the count gives the total when the count is positive, and it is 0 for an empty month |
| PdfExport.LargestTotalBounds | src/components/ui/PDFExport.tsx:36 | the reduce with `Math.max` from 0 gives max(0, every total) |
| PdfExport.AverageAtMostLargest | src/components/ui/PDFExport.tsx:31-36 | the month's average never exceeds its largest invoice |
| PdfExport.FirstSeenLabels | src/components/ui/PDFExport.tsx:53-67 | the keys of the accumulator: the month labels of the invoices with repeats dropped |
| PdfExport.FirstSeenLabelsOrder | src/components/ui/PDFExport.tsx:53-67 | the chart's labels are distinct, are exactly the month labels of the invoices, and come in order of first occurrence |
| PdfExport.LabelTotalIsFilteredSum | src/components/ui/PDFExport.tsx:53-62 | a label's value is the sum of the totals of exactly the invoices with that label |
| PdfExport.GroupingPreservesTotal | src/components/ui/PDFExport.tsx:53-62 | the values of all the labels add up to the total over all invoices |
| PdfExport.LabelTotals | src/components/ui/PDFExport.tsx:53-62 | the accumulator the reduce builds, one invoice at a time, as a map from month label to summed total |
| PdfExport.LabelTotalsAgree | src/components/ui/PDFExport.tsx:53-62 | the accumulator's keys are exactly the month labels and each holds its label's sum |
| PdfExport.AddToMonth | src/components/ui/PDFExport.tsx:56-61 | the reduce callback adds a new key at the end only for a missing label, and adds the total to that label's value, starting from 0 |
| PdfExport.ChartValues | src/components/ui/PDFExport.tsx:66-70 | one value per label, each that label's sum, and together the total over all invoices; the values are read in label order by the helper PdfExport.ObjectValues (line 70) |
| PdfExport.MonthlyRevenue | src/components/ui/PDFExport.tsx:53-70 | the loop gives exactly the first-seen labels and their values |
| PdfExport.OrElse | src/components/ui/PDFExport.tsx:183-184 | the `or` default of JavaScript on a text: the text unless it is absent or empty |
| PdfExport.CurrencyCode | src/components/ui/PDFExport.tsx:118 | `settings.currency` when set and not empty, otherwise "EUR" |
| PdfExport.AmountLocale | src/components/ui/PDFExport.tsx:139 | `settings.currencyFormat` when set and not empty, otherwise "fr-FR" |
| PdfExport.ClientRows | src/components/ui/PDFExport.tsx:180-185 | one row per client in order; a missing phone or address reads "N/A" |
| PdfExport.ProjectRows | src/components/ui/PDFExport.tsx:201-206 | one row per project in order; a missing budget shows 0 |
| PdfExport.InvoiceRows | src/components/ui/PDFExport.tsx:221-226 | one row per invoice of the month in order; a missing reference reads "N/A" |
| PdfExport.InvoiceRowsSum | src/components/ui/PDFExport.tsx:221-236 | the table's amounts add up to the invoices' totals |
| PdfExport.ComposeReport | src/components/ui/PDFExport.tsx:114-257 | the report shows the month's statistics, the counts, the three tables, a foot row equal to the month's total and to the sum of the rows, and the chart exactly when it could be drawn |
| PdfExport.DecimalString | src/components/ui/PDFExport.tsx:265 | a page number prints as decimal digits with no leading zero |
| PdfExport.DecimalStringRoundTrip | src/components/ui/PDFExport.tsx:265 | reading the printed digits back gives the page number |
| PdfExport.PdfDocument.constructor | src/components/ui/PDFExport.tsx:117 | a new document has one empty page, the current one |
| PdfExport.PdfDocument.AddPage | src/components/ui/PDFExport.tsx:176 | a new empty page goes at the end and becomes the current one |
| PdfExport.PdfDocument.SetPage | src/components/ui/PDFExport.tsx:261 | drawing goes to the given page |
| PdfExport.PdfDocument.Text | src/components/ui/PDFExport.tsx:264-269 | the text goes on the current page after what is there, and no other page changes |
| PdfExport.StampFooters | src/components/ui/PDFExport.tsx:259-270 | with N the final page count, each page i from 1 to N gets "Page i sur N" (the helper PdfExport.FooterText, line 265) drawn last, nothing else is drawn, and drawing is left on page N |
| Landing.Trim | src/app/page.tsx:23 | `trim()`: the text without its leading and trailing ECMAScript white space and line terminators |
| Landing.TrimIsInnerSlice | src/app/page.tsx:23 | `trim()` removes white space from both ends only, and stops at the first and last character that is not white space |
| Landing.TrimEmptyIffBlank | src/app/page.tsx:23 | a text trims to nothing exactly when it is all white space |
| Landing.ProfileAccepted | src/app/page.tsx:23 | the profile check: both fields are non-empty after `trim()` |
| Landing.ProfileRefusedIffBlank | src/app/page.tsx:23-25 | the profile is refused exactly when the name or the profession is all white space |
| Landing.ImportShapeOk | src/app/page.tsx:52 | the landing page's import check: a truthy business name and profession and truthy clients, projects and invoices |
| Landing.ImportCheckIsStricter | src/app/page.tsx:52 | every document the landing page's check accepts also passes the check of `importData` |
| Landing.StoreCheckIsLooser | src/app/page.tsx:52 | a document with an empty business name passes `importData`'s check but not the landing page's |
| Landing.HomePage.constructor | src/app/page.tsx:10-15 | empty fields, not loading, no error |
| Landing.HomePage.HandleNewProfile | src/app/page.tsx:17-37 | a blank field sets "Veuillez remplir tous les champs" and calls nothing; otherwise the untrimmed fields go to `updateProfile`, then either its error or the move to the dashboard; loading is off at the end |
| Landing.HomePage.HandleImport | src/app/page.tsx:39-63 | no file, a parse error or a failed shape check sets its message and leaves the slot and the route unchanged; an accepted document is stored exactly as parsed and the page moves to the dashboard |

## Left out

- Number formatting with `Intl.NumberFormat` (`formatCurrency`, `formatAmount`, the chart
  ticks) is a foreign library. The model keeps the amounts and the currency and locale
  it would be given.
- Date parsing and printing (`new Date`, `getMonth`, `toISOString`,
  `toLocaleDateString`) are parameters `monthOf`, `labelOf`, `dateText` and `iso`.
  Nothing is claimed about how they read a date.
- `JSON.parse` details are left out: the slot is `Empty`, `Corrupt` or a stored
  aggregate, and an imported text either fails with a message or gives a document's
  top-level keys. A document whose top level is not an object is not modelled. Neither
  is `JSON.parse("null")`, on which the property reads of `importData` and
  `handleImport` throw a TypeError that their `catch` turns into a refusal.
- `file.text()` cannot fail in the model.
- `crypto.randomUUID()` and the clock are parameters. Ids are not checked for
  uniqueness, as in the code.
- DOM, download and print plumbing is left out: `exportDataToJson`,
  `exportInvoiceToPdf`, the backup download, and the jsPDF drawing, styles and
  autoTable layout. `autoTable` may add pages of its own. `StampFooters` works on
  whatever page count the document has when the loop starts. `ComposeReport` gives
  the content of each section rather than its page.
- The chart's canvas and drawing are left out. `chartDrawn` says whether a 2D context
  was obtained. The `catch` around the chart is not modelled.
- Object aliasing of the module-level `initialData` is left out. `loadData` returns
  that very object, so a later change to the loaded aggregate (a form's `push`,
  `updateProfession` without a window) also changes the defaults. The model returns
  values.
- Concurrent writes from several tabs (last write wins) are left out.
- JavaScript numbers are modelled as reals, with no rounding and no NaN.
- `updateProfile` is imported by src/app/page.tsx but not defined in src/data/store.ts.
  The model records each call and takes the error it may throw as a parameter.
- InvoiceForm.NewInvoice, ProjectForm.NewProject, ClientForm.NewClient: the fields
  react-hook-form passes through `...formData` are only the form's own fields. With
  `defaultValues: initialData` an edit may also hand back the edited record's own `id`,
  which the spread, written after `id`, then puts over the `||` fallback. The fresh id
  the model gives an edited record whose id is empty holds only without that extra
  field. `createdAt` is written after the spread and is not affected.
- Store.DataStore.SaveData, Store.DataStore.ImportData, Landing.HomePage.HandleImport,
  Store.DataStore.LoadData: storage access never throws in the model. In the source
  `localStorage.setItem` can throw (a QuotaExceededError when the quota is full), and
  then `importData`'s `try` returns false with the slot unchanged (store.ts:166-177),
  while `handleImport` shows its error message and does not route (page.tsx:56-57).
  `localStorage.getItem` can throw a SecurityError when storage is blocked, and then
  `loadData` throws to its caller (store.ts:57). In the model every write succeeds and
  every read gives the slot's content.
- Store.ImportedData, Store.DataStore.ImportData, Landing.HomePage.HandleImport: key
  values that are truthy but are not arrays or records (such as `"clients": 1`) are
  not modelled. Such a document is accepted and stored by the source. Top-level keys
  other than the four are not modelled either, although both handlers store the whole
  parsed object, so that a `settings` key survives an import.
- ClientForm.FormAcceptedIff: the browser's own check of the `type="email"` input
  runs before react-hook-form and is not modelled. It refuses some strings the
  pattern accepts, such as `a@b..cc` and `a@-b.cc`, so the form can refuse a
  submission the model lets through.
- The order of JavaScript object keys is modelled as insertion order. This holds
  because month labels such as "janvier 2024" are never integer-like keys.
- The landing page and the store name the same localStorage key but read it with
  their own schemas. They are modelled as two separate slots.
- Landing.Trim: its own contract states only the length bound. What `trim()` removes
  is stated by `Landing.TrimIsInnerSlice` and `Landing.TrimEmptyIffBlank`.
- React state updates are applied at once, in program order. The re-renders and the
  asynchrony between them are not modelled.
