# MediCare hospital front end — a Dafny model of its page logic

MediCare is a React front end for a small hospital information system. It runs on in-memory mock data. This project models the logic inside its page handlers and two context providers.

- **Reception:** the intake queue. Arrivals are registered, their status changes, and the queue is searched and shown in triage order.
- **Pharmacy:** stock status derived from quantity and threshold. Products are created, edited and deleted, and restock orders are placed. Delivering an order adds its quantity to the product.
- **Billing:** invoices are built from line items and numbered `FAC-2024-NNN`. They are marked paid, and the page shows revenue aggregates.
- **Examinations:** exams are planned, edited, moved between statuses, completed by entering results, and deleted.
- **Consultations:** a consultation is opened with comma-separated symptoms and later completed.
- **Notifications:** the notification list, with its unread count.
- **Authentication:** the mock account table and the session user.
- **Profile and Register:** the two password forms, checked before they call the auth context.

Each page's state is a Dafny class with `seq` fields. Its methods are the handlers, and their `ensures` tie the new state to a pure function of the old one. Those functions, and the lemmas about them, carry the properties.

Modules and files:

| file | modules |
|---|---|
| `common.dfy` | `Wrappers` (an `Option`, for TypeScript's optional fields); `Seqs` (`filter`, `find`, counting) |
| `text.dfy` | `Text`: the JavaScript string operations the pages use |
| `directory.dfy` | `Directory`: the patient and doctor registries; `Clock`: the clock readings given to handlers |
| `reception.dfy`, `pharmacy.dfy`, `billing.dfy`, `examinations.dfy`, `consultations.dfy` | one module per page |
| `notifications.dfy`, `auth.dfy` | the two context providers |
| `passwords.dfy` | the password check shared by both password forms |
| `profile.dfy`, `register.dfy` | the two password forms |

Conventions:

- **Money:** held as integer cents, so totals are exact sums and products.
- **Clock:** `Date.now()`, `new Date().toISOString()` and the local time of day are passed in as an `Instant`. Identifiers such as `rec-<now>` are built from it.
- **Registries:** the patients and the active doctors are parameters.

Where the code and the intended design differ, the model follows the code:

- **Reception:**
  - The page has no cancel action.
  - Finishing a consultation passes no doctor, so `assignedDoctor` becomes absent.
  - Two entries that are not waiting are still ordered by priority.
  - New entries are put in front, so among equal keys the stable sort shows the newest first.
- **Pharmacy:**
  - The only limit on order transitions is that the status selector is hidden for delivered or cancelled orders. Any status, including pending again, can be chosen from pending or confirmed.
  - The delivery handler has no guard of its own. Called twice with `delivered`, it restocks twice, and the orders it looks up are those from before the status update.
  - Quantities, thresholds and prices are not validated, so they may be negative.
- **Auth and reception quirks:**
  - `changePassword` updates the session user only. The account table keeps the old password, so logging in again needs the old one.
  - A doctor id missing from the registry makes the reception label read `Dr. undefined undefined`.

## Model

| member | source | states |
|---|---|---|
| Seqs.Filter | src/pages/Reception.tsx:130-133 | the result is no longer than the input and holds exactly the input elements that satisfy the predicate |
| Seqs.FilterMultiset | src/pages/Reception.tsx:130-133 | filtering keeps every copy of a kept element and no copy of a dropped one |
| Seqs.FilterKeepsAll | src/pages/Consultations.tsx:129-133 | when every element satisfies the predicate, filtering returns the sequence unchanged |
| Seqs.FilterTwice | src/pages/Examinations.tsx:81-82 | filtering by p and then q is the single filter by p and q |
| Seqs.FilterConcat | src/contexts/NotificationContext.tsx:48-50 | the filter of a concatenation is the concatenation of the filters, so kept elements keep their relative order |
| Seqs.Count | src/pages/Reception.tsx:135-136 | the count is at most the length; it equals the length iff every element satisfies the predicate, and is zero iff none does |
| Seqs.CountFilterLength | src/pages/Reception.tsx:135 | the count equals the length of the filtered sequence, as `filter(...).length` computes it |
| Seqs.CountConcat | src/pages/Reception.tsx:135 | counting is additive over concatenation |
| Seqs.CountPointwise | src/contexts/NotificationContext.tsx:38-42 | when every position that satisfies p in b satisfies q in a, b has at most as many p as a has q |
| Seqs.FindFirst | src/pages/Reception.tsx:74 | None iff no element matches; otherwise an in-range index that matches, with no match before it |
| Seqs.Find | src/pages/Pharmacy.tsx:195 | None iff no element matches; otherwise the first matching element |
| Text.Contains | src/pages/Reception.tsx:131 | `includes` holds iff the substring occurs at some index |
| Text.ShiftOccurrence | src/pages/Reception.tsx:131 | without a match at index 0, a string contains the substring iff its tail does |
| Text.EmptyQueryMatches | src/pages/Reception.tsx:130-133 | an empty search query matches every field |
| Text.LeadingSpaces | src/pages/Consultations.tsx:92 | the count is the exact length of the leading white-space run |
| Text.TrailingSpaces | src/pages/Consultations.tsx:92 | the count is the exact length of the trailing white-space run |
| Text.Trim | src/pages/Consultations.tsx:92 | `trim` returns a slice with only white space outside it, and the slice neither starts nor ends with white space |
| Text.TrimIdempotent | src/pages/Consultations.tsx:92 | trimming twice is trimming once |
| Text.Split | src/pages/Consultations.tsx:92 | `split` gives one more piece than there are separators, and no piece contains the separator |
| Text.JoinSplit | src/pages/Consultations.tsx:92 | joining the pieces with the separator gives back the original string |
| Text.DigitChar | src/pages/Billing.tsx:105 | a digit below ten is rendered as the character with that value |
| Text.Decimal | src/pages/Billing.tsx:105 | `String(n)` is a non-empty string of digits with no leading zero |
| Text.DecimalRoundTrip | src/pages/Billing.tsx:105 | reading `String(n)` back as digits gives n |
| Text.PadStart | src/pages/Billing.tsx:105 | `padStart` has length max(length, width), ends with the input, and is fill before it |
| Text.LeadingZerosValue | src/pages/Billing.tsx:105 | zeros put in front of a digit string leave its value unchanged |
| Text.ZerosValue | src/pages/Billing.tsx:105 | a string of zeros has value 0 |
| Directory.FindPatient | src/pages/Reception.tsx:74 | None iff no patient has the id; otherwise the first patient with that id |
| Directory.FindDoctor | src/pages/Examinations.tsx:100 | None iff no doctor has the id; otherwise the first doctor with that id |
| Reception.ResolvedName | src/pages/Reception.tsx:71-76 | for an existing patient with an id, the registry's "first last" when the id is found, the typed name otherwise; for a new patient or an empty id, the typed name |
| Reception.NewEntry | src/pages/Reception.tsx:78-97 | rejected iff the resolved name or the reason is empty; otherwise a waiting entry with id `rec-<now>`, the form's patient id, the resolved name, the current time of day as arrival time, the form's reason, priority and notes, no doctor, and today's date |
| Reception.Registered | src/pages/Reception.tsx:99 | a rejected arrival leaves the list unchanged; an accepted one is put in front, and the old entries follow unchanged |
| Reception.WithStatus | src/pages/Reception.tsx:116-123 | the length is kept; entries with another id are unchanged; the matching entries take the new status and exactly the given doctor, and keep everything else |
| Reception.AssignmentLabel | src/pages/Reception.tsx:361-363 | "Dr. first last" of the first doctor with that id, or "Dr. undefined undefined" when no doctor has it |
| Reception.CompletingClearsDoctor | src/pages/Reception.tsx:387 | finishing leaves the matching entries completed with no assigned doctor |
| Reception.Search | src/pages/Reception.tsx:130-133 | the filter keeps exactly the entries whose name or reason contains the query (case-insensitively), with their multiplicities |
| Reception.CountersBounded | src/pages/Reception.tsx:135-136 | waiting plus in-consultation is at most the list length, and urgent-waiting is at most waiting |
| Reception.RegistrationCounts | src/pages/Reception.tsx:99 | an accepted arrival raises the waiting counter by one and leaves the in-consultation counter unchanged |
| Reception.Compare | src/pages/Reception.tsx:307-313 | the comparator's sign is the order of the keys: a waiting entry before a non-waiting one, then priority rank urgent 0, high 1, medium 2, low 3 |
| Reception.Insert | src/pages/Reception.tsx:306-313 | inserting adds exactly the one entry to the multiset |
| Reception.InsertSorted | src/pages/Reception.tsx:306-313 | inserting into a sorted list keeps it sorted by key |
| Reception.Sort | src/pages/Reception.tsx:306-313 | the sort result is ordered by key and is a permutation of its input |
| Reception.InsertWithKey | src/pages/Reception.tsx:306-313 | an inserted entry goes in front of its own key class and leaves the other key classes alone |
| Reception.SortStable | src/pages/Reception.tsx:306-313 | for every key, the entries with that key appear in the same relative order before and after sorting |
| Reception.Displayed | src/pages/Reception.tsx:306-313 | the shown queue is a permutation of the search result; every waiting entry precedes every non-waiting one; within each group priority rank never decreases |
| Reception.DisplayedStable | src/pages/Reception.tsx:306-313 | the shown queue keeps the search order among entries with equal keys |
| Reception.TriageExample | src/pages/Reception.tsx:309-312 | waiting entries urgent, low, medium are shown urgent, medium, low |
| Reception.ButtonsPath | src/pages/Reception.tsx:360-392 | through the buttons a waiting entry moves to in consultation with the doctor's label, then to completed without a doctor, after which neither button is shown |
| Reception.Desk.constructor | src/pages/Reception.tsx:53 | the queue starts as the given list |
| Reception.Desk.Register | src/pages/Reception.tsx:70-114 | the answer is true iff the arrival is accepted, and the queue becomes the registered list |
| Reception.Desk.ChangeStatus | src/pages/Reception.tsx:116-123 | the queue becomes the status-rewritten list |
| Reception.Desk.TakeCharge | src/pages/Reception.tsx:360-364 | the entry goes in consultation with the chosen doctor's label |
| Reception.Desk.Finish | src/pages/Reception.tsx:387 | the entry is completed with no doctor passed |
| Pharmacy.StockStatus | src/pages/Pharmacy.tsx:117-119 | out of stock iff the quantity is 0; low stock iff it is non-zero and below the threshold; in stock otherwise (the zero check first) |
| Pharmacy.RestockNeverWorsens | src/pages/Pharmacy.tsx:199-203 | adding a non-negative quantity to a non-negative stock never makes its status worse |
| Pharmacy.WithForm | src/pages/Pharmacy.tsx:122-125 | an edited product keeps its id and restock date, takes every form field, and gets the status derived from the form |
| Pharmacy.EditForm | src/pages/Pharmacy.tsx:168-181 | the edit dialog shows the product's fields, with an absent expiry date shown empty |
| Pharmacy.EditUnchangedKeepsProduct | src/pages/Pharmacy.tsx:168-181 | for a product with an expiry date and a derived status, saving the edit dialog untouched gives the product back unchanged |
| Pharmacy.SubmitProduct | src/pages/Pharmacy.tsx:116-137 | editing rewrites exactly the products with that id and keeps the length; creating puts in front a product `prod-<now>` carrying the form, its derived status and today's restock date |
| Pharmacy.SubmitKeepsStatusesDerived | src/pages/Pharmacy.tsx:116-135 | when every status is derived from quantity and threshold, it still is after a submit |
| Pharmacy.DeleteProduct | src/pages/Pharmacy.tsx:183-184 | exactly the products with that id are removed; the others keep their multiplicity |
| Pharmacy.FindProduct | src/pages/Pharmacy.tsx:144 | None iff no product has the id; otherwise the first with it |
| Pharmacy.NewOrder | src/pages/Pharmacy.tsx:143-160 | rejected iff the product is unknown; otherwise a pending order `order-<now>` with the product's name, the product's price × quantity, the form's supplier or else the product's, and today's order date |
| Pharmacy.PlaceOrder | src/pages/Pharmacy.tsx:162 | a rejected order leaves the orders unchanged; an accepted one is put in front |
| Pharmacy.SetOrderStatus | src/pages/Pharmacy.tsx:189-191 | only the orders with that id change, and only in their status |
| Pharmacy.Restocked | src/pages/Pharmacy.tsx:199-205 | a delivery adds the order's quantity, recomputes the status, sets today's restock date, and changes nothing else on the product |
| Pharmacy.Restock | src/pages/Pharmacy.tsx:197-208 | exactly the products the order references are restocked; the others are unchanged |
| Pharmacy.ChangeOrderStatus | src/pages/Pharmacy.tsx:188-211 | the orders take the status change; products change only on delivery, restocked by the first order with that id in the list as it was before |
| Pharmacy.DeliveryAddsQuantity | src/pages/Pharmacy.tsx:194-208 | on delivery a referenced product gains exactly the order's quantity; any other product is untouched |
| Pharmacy.DeliveryOfMissingProduct | src/pages/Pharmacy.tsx:196-198 | if no product has the order's product id, nothing changes |
| Pharmacy.RestockKeepsStatusesDerived | src/pages/Pharmacy.tsx:199-203 | restocking keeps every status derived from quantity and threshold |
| Pharmacy.DeliveredNotSelectable | src/pages/Pharmacy.tsx:575 | once delivered, an order no longer offers the status selector, so through the page it restocks once |
| Pharmacy.RestockExample | src/pages/Pharmacy.tsx:199-203 | 15 units against a threshold of 50 is low stock; delivering 200 gives 215, in stock |
| Pharmacy.OpenOrdersSelectable | src/pages/Pharmacy.tsx:91 | the open-order counter (pending or confirmed) counts exactly the orders that offer the selector |
| Pharmacy.StockCountsPartition | src/pages/Pharmacy.tsx:88-90 | the three stock counters add up to the number of products |
| Pharmacy.FilteredProducts | src/pages/Pharmacy.tsx:93-100 | the list keeps exactly the products matching the name or supplier search and the category and status filters ("all" matches everything), each as many times as it occurs in the input |
| Pharmacy.Store.constructor | src/pages/Pharmacy.tsx:60-61 | products and orders start as given |
| Pharmacy.Store.SubmitProductForm | src/pages/Pharmacy.tsx:116-141 | products become the submitted list; orders are unchanged |
| Pharmacy.Store.DeleteProductById | src/pages/Pharmacy.tsx:183-186 | products lose that id; orders are unchanged |
| Pharmacy.Store.SubmitOrderForm | src/pages/Pharmacy.tsx:143-166 | the answer is true iff the product exists; orders become the placed list; products are unchanged |
| Pharmacy.Store.ChangeStatus | src/pages/Pharmacy.tsx:188-213 | both lists become the pair the status change computes from the old state |
| Billing.QuantityEntry | src/pages/Billing.tsx:189 | a parsed non-zero quantity is kept; NaN and 0 both become 1, so the result is never 0 |
| Billing.PriceEntry | src/pages/Billing.tsx:194 | a parsed price is kept; NaN becomes 0 |
| Billing.AddLine | src/pages/Billing.tsx:212-214 | the lines gain a blank line at the end, and the others are unchanged |
| Billing.SetQuantity | src/pages/Billing.tsx:187-191 | only that line changes, and only its quantity, which becomes the entered value and is never 0 |
| Billing.SetPrice | src/pages/Billing.tsx:192-196 | only that line changes, and only its unit price |
| Billing.BuildItems | src/pages/Billing.tsx:92-99 | one item per line, with id `item-<now>-<index>`, the line's fields, and total quantity × unit price |
| Billing.SubtotalOfDrafts | src/pages/Billing.tsx:101 | the subtotal, the sum of the item totals, equals the sum of quantity × unit price over the lines |
| Billing.ItemsMatchDrafts | src/pages/Billing.tsx:101 | items whose totals agree with the lines sum to the lines' amount |
| Billing.InvoiceNumberDigits | src/pages/Billing.tsx:105 | the number is `FAC-2024-` followed by at least three digits, and exactly three while the count plus one is below 1000 |
| Billing.InvoiceNumberRoundTrip | src/pages/Billing.tsx:105 | the digits after the prefix read back as the invoice count plus one |
| Billing.DecimalLength | src/pages/Billing.tsx:105 | a number below 1000 has at most three digits |
| Billing.NewInvoice | src/pages/Billing.tsx:85-120 | rejected iff the patient is unknown; otherwise a pending invoice for the first patient with that id, with its name, address and phone, the built items, subtotal = total = sum of the lines, tax and discount 0, no payment, and the next number |
| Billing.CreateInvoice | src/pages/Billing.tsx:122 | a rejected invoice leaves the list unchanged; an accepted one is put in front |
| Billing.PaidInvoice | src/pages/Billing.tsx:131 | paid, with that method and payment time; every other field is unchanged |
| Billing.MarkAsPaid | src/pages/Billing.tsx:128-133 | the invoices with that id are paid; the others are unchanged; the length is kept |
| Billing.PaidNotPayable | src/pages/Billing.tsx:271 | a paid invoice no longer offers the pay button; the others offer what they did |
| Billing.PaidAndPendingWithinRevenue | src/pages/Billing.tsx:79-83 | with non-negative totals, the paid and pending sums are non-negative and together at most the grand total |
| Billing.MarkAsPaidKeepsRevenue | src/pages/Billing.tsx:80 | marking paid never changes the grand total |
| Billing.PayingMovesTotal | src/pages/Billing.tsx:81-82 | paying one pending invoice with a unique id moves exactly its total from the pending sum to the paid sum |
| Billing.PayingUnknownIdChangesNothing | src/pages/Billing.tsx:129-133 | paying an id nobody has leaves the list unchanged |
| Billing.FilteredInvoices | src/pages/Billing.tsx:72-77 | the list keeps exactly the invoices whose patient name or number contains the search and whose status passes the filter, each as many times as it occurs in the input |
| Billing.Ledger.constructor | src/pages/Billing.tsx:61 | the invoices start as given |
| Billing.Ledger.Create | src/pages/Billing.tsx:85-126 | the answer is true iff the patient is known; the invoices become the created list |
| Billing.Ledger.Pay | src/pages/Billing.tsx:128-135 | the invoices become the paid list |
| Examinations.ChooseType | src/pages/Examinations.tsx:324 | choosing a type clears the category and changes nothing else |
| Examinations.EditForm | src/pages/Examinations.tsx:142-153 | the dialog shows the exam's fields, with absent notes and results shown empty |
| Examinations.Overwritten | src/pages/Examinations.tsx:107-117 | an edited exam keeps its id, status, files and creation date, takes every form field (notes and results included), and gets both names recomputed |
| Examinations.Planned | src/pages/Examinations.tsx:120-134 | a new exam has id `exam-<now>`, is pending, has no results, carries the form and both names, and is dated today |
| Examinations.Submit | src/pages/Examinations.tsx:98-140 | nothing changes unless both patient and doctor are known; editing rewrites exactly the exams with that id; creating puts a planned exam in front |
| Examinations.EditingUnchangedKeepsExams | src/pages/Examinations.tsx:142-153 | opening an exam and saving untouched leaves the list unchanged, when its notes and results are present, its names are the registry's, and its id is unique |
| Examinations.WithStatus | src/pages/Examinations.tsx:162-165 | only the exams with that id change, and only in their status |
| Examinations.WithResults | src/pages/Examinations.tsx:169-172 | only the exams with that id change: they get the results and are completed |
| Examinations.Delete | src/pages/Examinations.tsx:157-158 | exactly the exams with that id are removed; every other one keeps its multiplicity |
| Examinations.ResultsLockExam | src/pages/Examinations.tsx:229-235 | after saving non-empty results, the exam shows neither the status selector nor the edit button; the other exams show what they did |
| Examinations.FilteredExams | src/pages/Examinations.tsx:71-79 | the list keeps exactly the exams matching the patient, name or category search and the type and status filters, each as many times as it occurs in the input |
| Examinations.TypeTab | src/pages/Examinations.tsx:81-82 | a tab holds exactly the filtered exams of its type, each as many times as it occurs in the input |
| Examinations.TypeTabIsOneFilter | src/pages/Examinations.tsx:81-82 | a tab is the single filter of the whole list by the search, the filters and its type |
| Examinations.LaboratoryFilterFillsTab | src/pages/Examinations.tsx:76-81 | with the type filter on laboratory, the laboratory tab is the whole filtered list |
| Examinations.Lab.constructor | src/pages/Examinations.tsx:52 | the exams start as given |
| Examinations.Lab.SubmitForm | src/pages/Examinations.tsx:98-140 | the exams become the submitted list |
| Examinations.Lab.ChangeStatus | src/pages/Examinations.tsx:162-167 | the exams become the status-changed list |
| Examinations.Lab.AddResults | src/pages/Examinations.tsx:485-486 | empty results save nothing; otherwise the exams become the list with results added |
| Examinations.Lab.Remove | src/pages/Examinations.tsx:157-160 | the exams lose that id |
| Consultations.Symptoms | src/pages/Consultations.tsx:92 | one symptom per comma-separated piece (comma count plus one), each the trimmed piece, none containing a comma |
| Consultations.SymptomsTrimmed | src/pages/Consultations.tsx:92 | every symptom is already trimmed |
| Consultations.EmptySymptoms | src/pages/Consultations.tsx:92 | an empty field gives one empty symptom |
| Consultations.FollowUp | src/pages/Consultations.tsx:96 | the follow-up date is absent iff the field is empty, and otherwise is the field |
| Consultations.NewConsultation | src/pages/Consultations.tsx:71-98 | rejected iff the patient or the doctor is unknown; otherwise an in-progress consultation `cons-<now>`, dated today, with both names, the split symptoms, the form's texts and no appointment |
| Consultations.Complete | src/pages/Consultations.tsx:119-122 | only the consultations with that id change, and only to completed |
| Consultations.CompletedNotOffered | src/pages/Consultations.tsx:340 | a completed consultation no longer offers completion; the others offer what they did |
| Consultations.CountersPartition | src/pages/Consultations.tsx:268-272 | the in-progress and completed counters add up to the list length |
| Consultations.CompletingMovesOne | src/pages/Consultations.tsx:268-272 | completing one in-progress consultation with a unique id moves exactly one from the first counter to the second |
| Consultations.Filtered | src/pages/Consultations.tsx:129-133 | the list keeps exactly the consultations whose patient, doctor or diagnosis contains the query, each as many times as it occurs in the input |
| Consultations.EmptySearchShowsAll | src/pages/Consultations.tsx:129-133 | the empty search shows the whole list |
| Consultations.Journal.constructor | src/pages/Consultations.tsx:51-65 | the list starts as given, and the dialog starts empty |
| Consultations.Journal.Submit | src/pages/Consultations.tsx:71-113 | the answer is true iff both people are known; on success the consultation is put in front and the dialog is cleared; otherwise nothing changes |
| Consultations.Journal.CompleteById | src/pages/Consultations.tsx:119-122 | the list becomes the completed list |
| Notifications.Created | src/contexts/NotificationContext.tsx:21-27 | the caller's fields, with id `notif-<now>`, unread, and the current time |
| Notifications.Added | src/contexts/NotificationContext.tsx:29 | the new notification goes in front of the old list, and the unread count grows by one |
| Notifications.ReadOne | src/contexts/NotificationContext.tsx:38-42 | only the notifications with that id change, and only to read |
| Notifications.ReadAll | src/contexts/NotificationContext.tsx:44-46 | same length and order, with every notification read and otherwise unchanged |
| Notifications.Cleared | src/contexts/NotificationContext.tsx:48-50 | exactly the notifications with that id are removed; every other one keeps its multiplicity |
| Notifications.ReadOneIdempotent | src/contexts/NotificationContext.tsx:38-42 | marking read twice is marking read once |
| Notifications.ReadOneNeverRaisesUnread | src/contexts/NotificationContext.tsx:38-42 | marking one read never raises the unread count |
| Notifications.ReadOneLowersUnread | src/contexts/NotificationContext.tsx:38-42 | marking read an id some unread notification has lowers the unread count |
| Notifications.ReadAllClearsUnread | src/contexts/NotificationContext.tsx:44-46 | after marking all read the unread count is 0 |
| Notifications.ClearedKeepsOrder | src/contexts/NotificationContext.tsx:48-50 | clearing works piece by piece, so the remaining notifications keep their order |
| Notifications.ClearingUnknownIdKeepsAll | src/contexts/NotificationContext.tsx:48-50 | clearing an id nobody has leaves the list unchanged |
| Notifications.Inbox.constructor | src/contexts/NotificationContext.tsx:17 | the list starts as given |
| Notifications.Inbox.Add | src/contexts/NotificationContext.tsx:21-36 | the list becomes the added list, and the unread count grows by exactly one |
| Notifications.Inbox.MarkAsRead | src/contexts/NotificationContext.tsx:38-42 | the list becomes the marked list, and the unread count does not grow |
| Notifications.Inbox.MarkAllAsRead | src/contexts/NotificationContext.tsx:44-46 | the list becomes the all-read list, with unread count 0 |
| Notifications.Inbox.Clear | src/contexts/NotificationContext.tsx:48-50 | the list loses that id |
| Auth.Answer | src/contexts/AuthContext.tsx:8-12 | the answer succeeds iff the operation did, with the success text or the error's message |
| Auth.FindAccount | src/contexts/AuthContext.tsx:43 | None iff no account has both that email and that password; otherwise the first such account |
| Auth.EmailTaken | src/contexts/AuthContext.tsx:64 | true iff some account has that email |
| Auth.NewUser | src/contexts/AuthContext.tsx:70-78 | the account `user-<now>` with the registration's email, password, role, names and phone |
| Auth.Registered | src/contexts/AuthContext.tsx:64-81 | a taken email leaves the table unchanged; otherwise the new account is appended |
| Auth.RegisterKeepsEmailsUnique | src/contexts/AuthContext.tsx:64-81 | if the table's emails are distinct, they still are after a registration |
| Auth.LoginFindsTheAccount | src/contexts/AuthContext.tsx:43 | with distinct emails, an account's own credentials log in as that account |
| Auth.Patched | src/contexts/AuthContext.tsx:96 | every field the patch gives replaces the user's; the others are kept |
| Auth.EmptyPatchKeepsUser | src/contexts/AuthContext.tsx:96 | an empty patch changes nothing |
| Auth.ProfileUpdate | src/contexts/AuthContext.tsx:89-100 | fails iff nobody is signed in; otherwise the patched session user |
| Auth.PasswordChange | src/contexts/AuthContext.tsx:103-118 | fails as not signed in iff there is no session, and as a wrong password iff the current password differs; otherwise the session user with only the password changed |
| Auth.ChangedPasswordStaysOutOfTable | src/contexts/AuthContext.tsx:114-116 | after a change the table still has the old password: the new one is refused at login and the old one accepted |
| Auth.AuthStore.constructor | src/contexts/AuthContext.tsx:27-37 | the table as given, and the session restored from storage if any |
| Auth.AuthStore.Login | src/contexts/AuthContext.tsx:39-52 | succeeds iff some account matches both fields; the session becomes the first such account, and on failure it is unchanged; the table is unchanged |
| Auth.AuthStore.Logout | src/contexts/AuthContext.tsx:54-57 | the session is cleared; the table is unchanged |
| Auth.AuthStore.Register | src/contexts/AuthContext.tsx:59-87 | succeeds iff the email is free; the table becomes the registered table; on success the new account is the session, on failure the session is unchanged |
| Auth.AuthStore.UpdateProfile | src/contexts/AuthContext.tsx:89-101 | the answer and the new session follow the profile update; the table is unchanged |
| Auth.AuthStore.ChangePassword | src/contexts/AuthContext.tsx:103-119 | the answer and the new session follow the password change; the table is unchanged |
| PasswordRules.Check | src/pages/Profile.tsx:63-79 | a mismatch iff the two entries differ; too short iff they agree and have fewer than 6 characters; acceptable otherwise, so the mismatch check wins |
| Profile.InitialFields | src/pages/Profile.tsx:15-20 | the form starts from the session user's fields, empty where absent or when nobody is signed in |
| Profile.FieldsPatch | src/pages/Profile.tsx:49 | the update sends exactly the four profile fields |
| Profile.MismatchReportedFirst | src/pages/Profile.tsx:63-79 | entries that differ and are short are reported as a mismatch |
| Profile.FormAfter | src/pages/Profile.tsx:91-97 | the password form is cleared on success and kept otherwise |
| Profile.SubmitProfile | src/pages/Profile.tsx:45-58 | the answer is the profile update of the four fields; the table is unchanged |
| Profile.SubmitPassword | src/pages/Profile.tsx:60-100 | a refused form reaches no auth call, keeps its entries and shows the refusal; an accepted one goes to the password change, and the form is cleared exactly when that succeeds |
| SignUp.RegistrationOf | src/pages/Register.tsx:62-69 | register receives the email, password, names, phone and role unchanged |
| SignUp.ConfirmationNotSent | src/pages/Register.tsx:62-69 | forms that differ only in the confirmation send the same data |
| SignUp.Submit | src/pages/Register.tsx:39-88 | a refused form leaves the auth state alone and shows the refusal; an accepted one is registered, and the page moves on iff the email was free, with the role-dependent welcome |

## Left out

- Rendering, dialogs opening and closing, toasts, badges, icons and routing: presentation only. The dialog resets of the reception, pharmacy, billing and exam pages are not modelled; those of the consultation dialog and the password form are.
- Network services and the PDF generator: network I/O and foreign libraries, not part of this model.
- The demo timer in the notification provider that adds random notifications: a timer with randomness.
- `localStorage` reads and writes and the simulated delays in the auth context. The operations are synchronous here, and the restored session is a constructor parameter.
- **Clock:** `Date.now()`, `toISOString()` and `toLocaleTimeString('fr-FR')` are parameters. Billing's due date, thirty days ahead, is a parameter too, so its date arithmetic is not modelled. A handler that reads the clock several times is given one reading: the invoice's id, item ids, `createdAt` and `updatedAt` all come from one `Instant`, where the page's separate readings can differ by a millisecond.
- Text.Lower: lower-cases ASCII letters only, where JavaScript's `toLowerCase` follows Unicode.
- PasswordRules.Check: counts characters, where JavaScript's `length` counts UTF-16 code units.
- Floats:
  - Prices and totals are integer cents.
  - `toFixed` display is out of scope.
  - `getStockPercentage`, which divides by the threshold and can divide by zero, is not modelled.
  - `parseInt(...)` and `parseFloat(...)` appear as their parse result, with `None` for NaN.
- TypeScript's spread of an explicit `undefined`: a patch field given as `undefined` is modelled as no field.
- Billing.Ledger.Pay: takes the payment method as a parameter, where the page's button always passes the card method.
- Editing the description or type of an invoice line: these assign one field of one line and nothing else.
- Dashboards, the patient, personnel and appointment pages, and the login page: static demo data and display.
