# Property-management front end: form, list and dashboard logic in Dafny

This project models the state logic of the React front end of a small
property-management and invoicing application. It covers the pure parts of
the invoice and property screens and the dashboard:

- the invoice creation dialog;
- the invoice list with its filters;
- the invoice details dialog with its status buttons;
- the property create/edit dialog;
- the property list with its owner filter and delete confirmation;
- the dashboard counters.

Each handler becomes a pure function from the current state and the reply of
the data-access call to the next state. The reply of each HTTP call is an
input (`Reply<T>`: a value, or a rejection carrying the server's optional
`detail`). JavaScript's value rules are written out where the code relies on
them:

- truthiness of `''`, `0` and `NaN`;
- `x || ''` and `x || null`;
- the decimal prefix that `parseInt` reads;
- `parseFloat` followed by `toFixed(2)`. Amounts are modelled as whole cents.

Modules follow the files of the front end:

| module | file | contents |
|---|---|---|
| `Values` | `values.dfy` | optional values, field scalars, truthiness, replies and error text |
| `JsNumber` | `numbers.dfy` | `parseInt`, `parseFloat` as cents, `toFixed(2)`, and their round trips |
| `Seqs` | `seqs.dfy` | `filter` and `find`, and their laws |
| `Entities` | `entities.dfy` | customer, property and invoice records, and the id lookups |
| `InvoiceStatus` | `status.dfy` | the four statuses, the badge table and the capitalized label |
| `InvoiceForm` | `invoice_form.dfy` | the invoice creation dialog |
| `InvoiceList` | `invoice_list.dfy` | the invoice list page |
| `InvoiceDetails` | `invoice_details.dfy` | the invoice details dialog |
| `PropertyForm` | `property_form.dfy` | the property dialog |
| `PropertyList` | `property_list.dfy` | the property list page |
| `Dashboard` | `dashboard.dfy` | the dashboard counters |

### Invoice dialog

The central result is `InvoiceForm.ComposedPayloadIsCoherent`. Start from the
dialog's opening state and apply any sequence of customer choices and field
edits; the property select is assumed to deliver only its placeholder or an
offered property. Then the payload the dialog submits has these two
properties:

- its `total` equals `subtotal + tax` whenever both amounts parse and have at most two decimals and no exponent;
- a chosen property belongs to the chosen customer.

### Behaviour the model follows from the code

In these places the code differs from what one might expect of the
application. The model follows the code:

- **Status buttons:** the details dialog shows a button for each of Sent, Paid
  and Void except the current status. That is three buttons for a draft or an
  unknown status and two otherwise, and never a way back to draft.
- **No checks on submit:** the invoice dialog checks nothing before
  submitting. A blank id or amount goes out as `NaN`/`null`, and the `required`
  attributes of the inputs are the only guard.
- **Total:** the invoice total is the `toFixed(2)` text of
  `(parseFloat(subtotal) || 0) + (parseFloat(tax) || 0)`. It is recomputed
  only when the subtotal or the tax changes.
- **Status select:** the property dialog's status control is a select, not a
  number input. Choosing a status therefore stores the text `'0'` or `'1'`
  rather than a number.
- **Edit without a property:** in edit mode without a property, reading
  `property.property_id` throws inside the `try`. No request is made, and the
  dialog shows 'Operation failed'.
- **Stale errors:** a successful filter change (invoices or properties) does
  not clear an error left by an earlier failure. Only a full reload clears it.
- **Reloads drop the filters:** every reload (after a created invoice, a status
  change, a saved property or a deleted property) asks for the whole unfiltered
  list. The filter selects keep showing the earlier choice, so once a filter is
  set, the list and the selects disagree.
- **Dashboard failure:** a failed dashboard load is only logged, so the
  counters keep their previous values.

## Model

| member | source | states |
|---|---|---|
| Values.OrEmpty | frontend/src/pages/properties/PropertyForm.jsx:25-29 | `s \|\| ''` is `''` exactly when the value is null or empty, and the value itself otherwise |
| Values.OrNull | frontend/src/pages/invoices/InvoiceForm.jsx:61 | `s \|\| null` is null exactly when the text is empty, and the text itself otherwise |
| Values.ErrorText | frontend/src/pages/invoices/InvoiceForm.jsx:73 | the message shown for a failed call is the server's detail when present, else the fallback, and never empty when the fallback is not |
| JsNumber.ParseIntRoundTrip | frontend/src/pages/invoices/InvoiceForm.jsx:56-57 | `parseInt` reads back a safe integer (\|i\| ≤ 2^53) from its decimal text; integers are unbounded here |
| JsNumber.SignedPartIsSuffix | frontend/src/pages/invoices/InvoiceForm.jsx:23 | `parseInt` and `parseFloat` read a suffix of the text; what they drop before it is leading white space followed by at most one `-` or `+` |
| JsNumber.FormatCents | frontend/src/pages/invoices/InvoiceForm.jsx:43 | `toFixed(2)` text has exactly two digits after the point, and starts with `-` exactly for a negative amount |
| JsNumber.ParseCentsRoundTrip | frontend/src/pages/invoices/InvoiceForm.jsx:62-64 | `parseFloat` reads a `toFixed(2)` amount back as the same number of cents |
| JsNumber.NoDigitNoNumber | frontend/src/pages/invoices/InvoiceForm.jsx:41-42 | text without any digit (`Infinity` aside) is `NaN` to both parsers, and so counts as 0 in the total |
| JsNumber.BlankAmount | frontend/src/pages/invoices/InvoiceForm.jsx:62-64 | the empty-text case of `NoDigitNoNumber`: an empty amount is `NaN` (sent as null) and counts as 0 in the total |
| Seqs.FirstIndex | frontend/src/pages/invoices/InvoiceList.jsx:86 | `find` returns the first match, and nothing exactly when no element matches |
| Seqs.FilterExactly | frontend/src/pages/invoices/InvoiceForm.jsx:31 | `filter` keeps an element exactly when it is in the input and passes |
| Seqs.FilterCount | frontend/src/pages/invoices/InvoiceForm.jsx:31 | `filter` keeps every copy of a passing element and no copy of a failing one |
| Seqs.FilterIsSubsequence | frontend/src/pages/invoices/InvoiceForm.jsx:31 | `filter` keeps the original order |
| Seqs.FilterAppend | frontend/src/pages/dashboard/Dashboard.jsx:30-33 | filtering a concatenation filters each part |
| Seqs.FilterKeepsAll | frontend/src/pages/dashboard/Dashboard.jsx:30-33 | nothing is dropped exactly when every element passes |
| Seqs.FilterSplitsLength | frontend/src/pages/dashboard/Dashboard.jsx:31-33 | the elements that pass and those that fail together make up the whole array |
| Entities.CustomerName | frontend/src/pages/invoices/InvoiceList.jsx:85-88 | the first customer with the id gives the full name; with no such customer the name is 'Unknown' |
| Entities.PropertyLabel | frontend/src/pages/invoices/InvoiceList.jsx:90-93 | the first property with the id gives the label; with no such property the label is 'Unknown' |
| Entities.CustomerNameUnknownIff | frontend/src/pages/properties/PropertyList.jsx:90-93 | the owner reads 'Unknown' exactly when no loaded customer has the id |
| Entities.PropertiesOf | frontend/src/pages/invoices/InvoiceForm.jsx:31-32 | a customer's properties are exactly the loaded properties with that owner, each as often as loaded, in server order |
| InvoiceStatus.Parse | frontend/src/pages/invoices/InvoiceList.jsx:96-101 | a status string names a status exactly when it is one of the four keys of the badge table |
| InvoiceStatus.Badge | frontend/src/pages/invoices/InvoiceList.jsx:95-103 | a known status gets its own badge; anything else gets the draft badge |
| InvoiceStatus.BadgeClassInjective | frontend/src/pages/invoices/InvoiceDetails.jsx:24-29 | no two statuses share a badge |
| InvoiceStatus.BadgeIdentifiesStatus | frontend/src/pages/invoices/InvoiceDetails.jsx:30 | a string shows a status's badge exactly when it is that status, or for draft when it is unknown |
| InvoiceStatus.Capitalize | frontend/src/pages/invoices/InvoiceList.jsx:273 | the label has the status's length, with the first letter upper-cased and the rest unchanged |
| InvoiceForm.Initial | frontend/src/pages/invoices/InvoiceForm.jsx:5-17 | the dialog opens with status 'sent', today as issue date, and every other field empty |
| InvoiceForm.Begin | frontend/src/pages/invoices/InvoiceForm.jsx:5-20 | the dialog opens with the initial form and no property choices |
| InvoiceForm.SelectCustomer | frontend/src/pages/invoices/InvoiceForm.jsx:22-33 | choosing a customer stores its parsed id and clears the property, and leaves every other field alone. The choices become exactly that customer's properties, each as often as loaded, in server order |
| InvoiceForm.ChooseListedCustomer | frontend/src/pages/invoices/InvoiceForm.jsx:119-123 | choosing a listed customer offers exactly that customer's properties |
| InvoiceForm.TotalIsSum | frontend/src/pages/invoices/InvoiceForm.jsx:40-44 | the recomputed total reads back as the sum of subtotal and tax in whole cents, each counted as 0 when blank or not a number |
| InvoiceForm.Edit | frontend/src/pages/invoices/InvoiceForm.jsx:35-47 | a change stores its value and touches no other input; the total is recomputed exactly when the subtotal or the tax changes |
| InvoiceForm.BuildPayload | frontend/src/pages/invoices/InvoiceForm.jsx:55-67 | dates and status are copied verbatim, and a blank due date or notes becomes null. A blank or `NaN` id or a blank amount is `NaN`, and a numeric customer id is kept |
| InvoiceForm.Submit | frontend/src/pages/invoices/InvoiceForm.jsx:49-77 | the request is the payload; success runs `onSuccess`; failure shows the detail or 'Failed to create invoice'. Loading always ends |
| InvoiceForm.EditKeepsTotal | frontend/src/pages/invoices/InvoiceForm.jsx:35-47 | every edit keeps the total in agreement with the amounts |
| InvoiceForm.EditKeepsProperty | frontend/src/pages/invoices/InvoiceForm.jsx:35-47 | an edit that picks an offered property keeps the property among the customer's |
| InvoiceForm.SelectKeepsAgreement | frontend/src/pages/invoices/InvoiceForm.jsx:22-33 | choosing a customer keeps the options owned by the chosen customer |
| InvoiceForm.StepKeepsAgreement | frontend/src/pages/invoices/InvoiceForm.jsx:22-47 | every user event keeps both agreements |
| InvoiceForm.RunKeepsAgreement | frontend/src/pages/invoices/InvoiceForm.jsx:22-47 | any run of user events keeps both agreements |
| InvoiceForm.PayloadTotalIsSum | frontend/src/pages/invoices/InvoiceForm.jsx:62-64 | a form whose total agrees with its amounts submits total = subtotal + tax when both parse, amounts having at most two decimals and no exponent |
| InvoiceForm.PayloadPropertyIsOwned | frontend/src/pages/invoices/InvoiceForm.jsx:56-57 | a submitted property id is a loaded property owned by the submitted customer |
| InvoiceForm.ComposedPayloadIsCoherent | frontend/src/pages/invoices/InvoiceForm.jsx:22-67 | from the opening state, after any events, the payload sums up (amounts having at most two decimals and no exponent) and its property belongs to its customer |
| InvoiceList.Set | frontend/src/pages/invoices/InvoiceList.jsx:52 | a filter change sets one filter and keeps the other two |
| InvoiceList.Clean | frontend/src/pages/invoices/InvoiceList.jsx:56-58 | the query holds exactly the non-empty filters, with their values |
| InvoiceList.RestoreClean | frontend/src/pages/invoices/InvoiceList.jsx:56-58 | the filters can be read back from the query: cleaning loses nothing |
| InvoiceList.CleanNoFilters | frontend/src/pages/invoices/InvoiceList.jsx:16-20 | with the initial filters the query is empty |
| InvoiceList.Load | frontend/src/pages/invoices/InvoiceList.jsx:31-48 | the invoices are asked for with an empty query while the selects keep their values; success replaces all three lists and clears the error; failure keeps them and shows the detail or 'Failed to load data' |
| InvoiceList.FilterChange | frontend/src/pages/invoices/InvoiceList.jsx:50-69 | the query is the cleaned new filters; success replaces the invoices and keeps any earlier error; failure keeps them and shows the detail or 'Failed to filter invoices' |
| InvoiceList.FormSuccess | frontend/src/pages/invoices/InvoiceList.jsx:80-83 | a created invoice closes the dialog and reloads everything with an empty query |
| InvoiceList.ReloadIgnoresFilters | frontend/src/pages/invoices/InvoiceList.jsx:35-39 | after a filter change a reload keeps the chosen filter in the selects but sends an empty query, which matches the selects only when every select shows all |
| InvoiceList.Render | frontend/src/pages/invoices/InvoiceList.jsx:120-293 | the spinner shows only while loading with no invoices. Otherwise the placeholder row shows exactly for an empty list, else one row per invoice in order; the count is the number of invoices |
| InvoiceList.RowCustomerIsUnknownIffMissing | frontend/src/pages/invoices/InvoiceList.jsx:259-261 | a row shows 'Unknown' for its customer exactly when that customer is not loaded |
| InvoiceDetails.OfferedActions | frontend/src/pages/invoices/InvoiceDetails.jsx:128-154 | the buttons are Sent, Paid, Void without repetition, each exactly when it is not the current status. That is two from a known non-draft status, else three |
| InvoiceDetails.OfferedSet | frontend/src/pages/invoices/InvoiceDetails.jsx:128-154 | the offered set is {Sent, Paid, Void} minus the current status |
| InvoiceDetails.PressStatus | frontend/src/pages/invoices/InvoiceDetails.jsx:33-46 | a request is sent only when enabled and confirmed, then `onUpdate` and `onClose` on success or an alert with the detail or 'Failed to update status' on failure. Loading then ends |
| InvoiceDetails.ButtonsNeverRequestCurrent | frontend/src/pages/invoices/InvoiceDetails.jsx:128-154 | the buttons never request the current status or draft |
| InvoiceDetails.FormatDate | frontend/src/pages/invoices/InvoiceDetails.jsx:14-21 | a missing or empty date is 'N/A', any other is its long form; with a renderer that never yields 'N/A', 'N/A' means missing |
| InvoiceDetails.ShowsNotes | frontend/src/pages/invoices/InvoiceDetails.jsx:117 | the notes panel shows exactly for non-empty notes |
| PropertyForm.Initial | frontend/src/pages/properties/PropertyForm.jsx:5-15 | the empty form has every field `''` except the active flag, which is the number 1 |
| PropertyForm.FromProperty | frontend/src/pages/properties/PropertyForm.jsx:21-31 | the edit form shows the id and flag as numbers, the required texts as given, and null optional columns as `''` |
| PropertyForm.Prefill | frontend/src/pages/properties/PropertyForm.jsx:19-33 | the form is replaced exactly in edit mode with a property |
| PropertyForm.Change | frontend/src/pages/properties/PropertyForm.jsx:35-41 | a number input stores `parseInt` of its text and any other input stores the text; nothing else changes |
| PropertyForm.Clean | frontend/src/pages/properties/PropertyForm.jsx:48-54 | an optional field is dropped exactly when falsy; required fields are always sent; values are unchanged |
| PropertyForm.SaveUnchangedAt | frontend/src/pages/properties/PropertyForm.jsx:25-29 | per column, prefill then clean sends a column exactly when it is stored, with its value |
| PropertyForm.SaveUnchanged | frontend/src/pages/properties/PropertyForm.jsx:19-54 | opening a property for edit and saving it untouched sends exactly its stored columns |
| PropertyForm.SubmitRequest | frontend/src/pages/properties/PropertyForm.jsx:56-61 | create mode creates; any other mode updates the property's id; without a property nothing is sent |
| PropertyForm.Submit | frontend/src/pages/properties/PropertyForm.jsx:43-68 | success runs `onSuccess`, failure or a missing property shows the detail or 'Operation failed', and loading ends |
| PropertyForm.StatusSelectSendsText | frontend/src/pages/properties/PropertyForm.jsx:234-243 | whatever option the status select delivers is stored and sent as its text, never as a number |
| PropertyList.QueryParams | frontend/src/services/propertyService.js:4-5 | the query carries `customer_id` exactly for a truthy argument, and nothing else |
| PropertyList.FilterQuery | frontend/src/pages/properties/PropertyList.jsx:49 | 'All Customers' asks for everything and a customer asks for that customer |
| PropertyList.Load | frontend/src/pages/properties/PropertyList.jsx:26-41 | the properties are asked for without `customer_id` while the select keeps its choice; success replaces both lists and clears the error; failure keeps them and shows the detail or 'Failed to load data'; the dialogs and their property are left alone |
| PropertyList.ReloadIgnoresOwnerFilter | frontend/src/pages/properties/PropertyList.jsx:30-33 | after choosing an owner a reload keeps the select on that owner but asks for every property; the query matches the select exactly when it shows all |
| PropertyList.FilterChange | frontend/src/pages/properties/PropertyList.jsx:43-56 | the selection is remembered and the query is that of `value \|\| null`. Success replaces the properties; failure keeps them and shows the detail or 'Failed to filter properties'; the dialogs and their property are left alone |
| PropertyList.AddClick | frontend/src/pages/properties/PropertyList.jsx:58-62 | the form opens in create mode without a property; the lists, the owner filter, the loading flag and the error are left alone |
| PropertyList.EditClick | frontend/src/pages/properties/PropertyList.jsx:64-68 | the form opens in edit mode on the clicked property; the lists, the owner filter, the loading flag and the error are left alone |
| PropertyList.DeleteClick | frontend/src/pages/properties/PropertyList.jsx:70-73 | the confirmation opens on the clicked property; the form, the lists, the owner filter, the loading flag and the error are left alone |
| PropertyList.DialogsSendTheRightRequest | frontend/src/pages/properties/PropertyList.jsx:58-68 | a form opened by Edit updates the clicked property and one opened by Add creates |
| PropertyList.DeleteConfirm | frontend/src/pages/properties/PropertyList.jsx:80-88 | the selected id is deleted; success closes and reloads; failure keeps the confirmation open and alerts the detail or 'Failed to delete property' |
| PropertyList.FormSuccess | frontend/src/pages/properties/PropertyList.jsx:75-78 | a saved property closes the form and reloads everything without the owner filter |
| PropertyList.ActiveLabel | frontend/src/pages/properties/PropertyList.jsx:203-209 | 'Active' exactly for the number 1, else 'Inactive' |
| PropertyList.Address2Line | frontend/src/pages/properties/PropertyList.jsx:194 | the second address line shows exactly when `address2` is non-empty |
| PropertyList.CityStateLine | frontend/src/pages/properties/PropertyList.jsx:195-197 | the city line shows exactly when city and state are both non-empty, as `city, state postal` with a null postal code left blank |
| PropertyList.FirstRenderIsSpinner | frontend/src/pages/properties/PropertyList.jsx:8-10 | before the first load answers, the page shows only the spinner |
| PropertyList.Render | frontend/src/pages/properties/PropertyList.jsx:95-235 | the spinner shows only while loading with no properties. Otherwise the placeholder row shows exactly for an empty list, else one row per property; the count is the number of properties |
| Dashboard.ActiveCount | frontend/src/pages/dashboard/Dashboard.jsx:30 | the active count is at most the number of properties, and equal to it exactly when all are active |
| Dashboard.PendingCount | frontend/src/pages/dashboard/Dashboard.jsx:31-33 | the pending count is at most the number of invoices, and equal to it exactly when all are sent or draft |
| Dashboard.ComputeStats | frontend/src/pages/dashboard/Dashboard.jsx:35-39 | the counters are the number of customers, the number of properties whose flag is 1 and the number of sent or draft invoices, the last two bounded by their lists |
| Dashboard.FetchStats | frontend/src/pages/dashboard/Dashboard.jsx:20-45 | success recomputes the counters and failure keeps the previous ones; loading ends either way |
| Dashboard.FailedFirstLoadShowsZeros | frontend/src/pages/dashboard/Dashboard.jsx:9-13 | a failed first load leaves all counters at zero |
| Dashboard.ActiveCountAppend | frontend/src/pages/dashboard/Dashboard.jsx:30 | one more property raises the active count exactly when its flag is 1 |
| Dashboard.PendingCountAppend | frontend/src/pages/dashboard/Dashboard.jsx:31-33 | one more invoice raises the pending count exactly when it is sent or draft |
| Dashboard.PendingMeansSentOrDraft | frontend/src/pages/dashboard/Dashboard.jsx:31-33 | pending means the status reads as Sent or Draft; paid, void and unknown never count |
| Dashboard.PendingAndSettledSplit | frontend/src/pages/dashboard/Dashboard.jsx:31-33 | pending and non-pending invoices together account for every invoice |

## Left out

- HTTP, the `api` client and its authentication interceptor are not modelled. Every call's outcome is a `Reply` input.
- Routing, the auth context and the customer pages are not part of this model.
- Concurrency and interleaving of pending requests are not modelled. Each handler runs to completion on the reply it is given, and so does React's batching of `setLoading(true)` with the later state updates.
- The stale `formData` closure in the invoice dialog's `handleChange` is not modelled. Events are applied one after another, each to the latest form.
- The clock is not modelled. The date part of `new Date().toISOString()` (a UTC date) is the `today` parameter of `InvoiceForm.Initial`.
- Locale formatting (`Intl.NumberFormat` currency and `toLocaleDateString`) is not modelled. `InvoiceDetails.FormatDate` takes the renderer as a parameter, and the list's currency and date cells are not modelled.
- JsNumber.ParseCents: amounts are whole cents. Digits after the second decimal are dropped (so `1.999` gives the total text `1.99`, where `toFixed(2)` writes `2.00`), and exponents (a number input accepts `1e-3`, which the program submits as subtotal 0.001 with total `0.00`), `Infinity` and floating-point rounding of `parseFloat`/`toFixed` are not modelled, because an input with more than two decimals or a huge magnitude is outside the cent model.
- JsNumber.ParseIntRoundTrip: ids are taken as safe integers (|i| ≤ 2^53). The model's integers are unbounded, while JavaScript loses precision above 2^53 and writes 10^21 and beyond in exponent form, which `parseInt` reads as 1.
- JsNumber.ParseInt: hexadecimal prefixes, radix handling and whitespace other than space, tab, newline and carriage return are not modelled.
- The upper-casing in `InvoiceStatus.Capitalize` covers ASCII letters only.
- Badge lookups for keys inherited from `Object.prototype` (a status named `constructor`, for example) are not modelled. Any string other than the four names gets the draft badge.
- The browser's `required` checks and `window.confirm`/`alert` dialogs are not modelled. The confirmation answer is an input, and an alert is the returned message.
- The open/close flags of the invoice list's dialogs (`handleAddClick`, `handleViewClick`) and the props passed to the dialogs are not modelled beyond `InvoiceList.FormSuccess`.
- The dashboard's error log (`console.error`) and its greeting are not modelled.
