# BDTOOL project-list workflow, audit stamping and list filters in Dafny

BDTOOL is a project and client back-office built on the Django admin. Most of
it is declarative admin configuration. This model covers the parts that
behave:

- **The custom project-list workflow.** The Project admin's bulk action
  "Create custom project list" (`ProjectAdmin.create_list`) stages the
  selected project keys in the user's session under `'data'`. The
  `create_custom_list` view then does four things on a valid POST:
  - creates and saves a `List` with the submitted name, stamped with the
    acting user as creator and updater;
  - adds every staged key to the List's `projects` relation while counting;
  - queues the message "Successfully added N projects to list NAME.";
  - redirects to the List admin.
- **Audit stamping.** The `save_model` override is written out identically in
  the Client, List and Project admins. On create it sets `created_by` and
  `updated_by` to the acting user. On change it sets only `updated_by`.
- **The Project listing's sidebar filters.** `BudgetRangeFilter` maps the
  codes `'0'`..`'4'` to five half-open budget bands. `CurrencyTypeFilter`
  maps `'INR'`, `'USD'` and `'EUR'` to currency equality. Any other code,
  including no selection, returns `None`, and the listing stays unfiltered.
- **The CSV export action's rows.** `export_as_excel` writes a header of field
  names, then one row per object.

Modules, one per source file or concern:

- `Records` (records.dfy): the entities of `models.py` that these touch.
  - `Project`: key, budget in cents, currency code.
  - `ListRecord`: name, creator, updater, set of project keys.
  - `SiteState`: one user's session slot (`Option<seq<ProjectId>>`) and
    message queue, and the List table (a sequence of `ListRecord`) as that
    user's requests see it.
  - The `Site` class holds that state for the imperative request handlers.
- `Decimal` (decimal.dfy): how Python formats the count into the message, with
  its parser.
- `Admin` (admin.dfy): the staging action, the audit rule on an
  `AuditedObject` class, and the export rows. `AuditedObject` stands for a
  Client, List or Project instance saved through its admin form; it is
  separate from the List table of `Records.Site`, which the list workflow
  fills.
- `Views` (views.py's view): `Submit` is the specification of one request.
  `CreateCustomList` is the imperative view, proved equal to `Submit`.
- `Filters` (filters.py): the lookups and querysets as functions over
  sequences of projects (querysets are ordered).
- `Workflow` (workflow.dfy): lemmas across requests: stage, then submit, then
  resubmit.

Budgets are Django decimals with two places, kept here as integer cents. A
band bound of 1,000 is `1000 * Cents` with `Cents == 100`.

Three behaviours of the code are worth stating explicitly:

- A non-POST request or a rejected form does not re-display the form. The
  view falls off its end and returns `None` (`Response.NoResponse`), and
  nothing is changed. The framework rejects a view that returns `None` with a
  server error, as it does on the `NotIterable` path.
- Staging an empty selection does not stage an empty collection. The session
  write sits inside the loop, so the old slot stays (`Admin.Staged`). As a consequence, staging alone can
  never produce an empty slot (`Workflow.StagingNeverStoresEmpty`). From a
  fresh session, "stage nothing, then submit" therefore fails after storing an
  empty List (`Workflow.EmptySelectionFromFreshSession`). It does not report
  "Successfully added 0 projects". This path is rare: the admin refuses to
  run an action when no row is checked, so the action sees an empty
  selection only through select-across on an empty listing or when the
  selected rows were deleted in the meantime. The usual way to reach the
  failure is a POST without any staging
  (`Workflow.MissingSlotLeavesEmptyList`).
- The staged slot is never cleared after a List is made.
  `Workflow.ResubmitCreatesSecondList` shows that a resubmission makes a
  second List with the same members.

## Model

Helpers that only name a test or a repeated step have no row of their own:
`Views.IsValidPost` (the POST and `form.is_valid()` tests of
project_management/views.py:15-17), `Admin.Edited` (a run of change-saves
through `save_model`, used by the audit lemmas), `Records.Distinct`,
`Records.DistinctIds`, `Records.Site.State`, `Admin.AuditedObject.AuditFields`,
`Filters.InBand`, `Filters.Matches`, `Filters.Codes`, `Decimal.IsDigit`,
`Decimal.AllDigits`, `Decimal.DigitChar` and `Decimal.DecimalValue`.

| member | source | states |
|---|---|---|
| `Records.Members` | project_management/views.py:24-27 | the set the `projects` relation holds after adding each staged key: a key is a member exactly when it occurs in the staged sequence |
| `Records.Ids` | project_management/admin.py:209-211 | the staged keys have one entry per selected row, and the i-th entry is the i-th row's primary key (queryset order) |
| `Records.DistinctMembers` | project_management/views.py:24-27 | when the staged keys are distinct, the List gets exactly as many members as the loop counted |
| `Decimal.NatToDecimal` | project_management/views.py:31-33 | the count is written as a non-empty string of decimal digits with no leading zero |
| `Decimal.DecimalRoundTrip` | project_management/views.py:31-33 | reading the written count back gives the count |
| `Decimal.NatToDecimalInjective` | project_management/views.py:31-33 | different counts are written differently |
| `Admin.Staged` | project_management/admin.py:209-212 | the slot after staging: unchanged for an empty selection; otherwise one key per selected row, the i-th being the i-th row's primary key |
| `Admin.CreateList` | project_management/admin.py:207-216 | the staging action writes the selected keys, in queryset order, into the slot and replaces what was there; an empty selection leaves the slot as it was; Lists and messages are unchanged |
| `Admin.Stamp` | project_management/admin.py:93-99 | the audit rule: the updater always becomes the acting user; the creator becomes the acting user on create and is kept on change |
| `Admin.AuditedObject.constructor` | project_management/models.py:252-259 | an unsaved object's `created_by` and `updated_by` both start at the default user 1 |
| `Admin.AuditedObject.SaveModel` | project_management/admin.py:93-99 | a change-save applies only to an object already stored, as the admin passes `change` only for a loaded object; on create, creator and updater become the acting user; on change, only the updater does and the creator is kept; other attributes are unchanged; the saved row is the stamped object |
| `Admin.CreatorSurvivesEdits` | project_management/admin.py:145-151 | after a create by one user and any sequence of change-saves, the creator is still the creating user and the updater is the last saver (or the creator when there were none) |
| `Admin.EditedFrom` | project_management/admin.py:247-253 | a change-save's effect does not depend on the previous updater: it is overwritten by the next change-save |
| `Admin.StampIdempotent` | project_management/admin.py:247-253 | saving again as the same user, in the same mode, changes nothing more |
| `Admin.ExportAsExcel` | project_management/admin.py:27-45 | the export is the header of field names followed by exactly one row per object, in order; every row has the header's length and its j-th cell is the object's value for the j-th field |
| `Views.AddedMessage` | project_management/views.py:29-34 | the confirmation text starts with "Successfully added " followed by a digit, holds at least one character besides its fixed parts and the List's name, and ends with a full stop |
| `Views.Submit` | project_management/views.py:13-35 | for every request the slot is only read, earlier Lists and messages are kept, one List is appended exactly on a valid POST, one message exactly when the view redirects, and no response is produced exactly for a non-POST request or a rejected form |
| `Views.CreateCustomList` | project_management/views.py:13-35 | the view's new List table, messages, slot and response are exactly those `Submit` prescribes for the request |
| `Views.ValidPostAddsOneList` | project_management/views.py:15-35 | a valid POST appends exactly one List after the existing ones, named as submitted and created and updated by the acting user, and leaves the slot as it was; with a staged slot, its members are exactly the staged keys, the message is `AddedMessage` of the staged length and the response redirects to the List admin; without one, the List is stored empty, no message is queued and the request fails on iteration |
| `Views.RejectedRequestChangesNothing` | project_management/views.py:15-17 | a non-POST request or a rejected form stores no List, queues no message and returns nothing |
| `Views.AddedMessageReadsBack` | project_management/views.py:29-34 | the message is "Successfully added ", the decimal count (which reads back as the count), " projects to list ", the List's name, then "." |
| `Views.AddedMessageDeterminesCount` | project_management/views.py:29-34 | two messages for the same List name are equal only when their counts are |
| `Filters.Keep` | project_management/filters.py:50-52 | `queryset.filter(...)` keeps a record exactly when it is in the queryset and matches the lookup, and never returns more rows than it was given |
| `Filters.KeepConcat` | project_management/filters.py:48-70 | filtering a concatenation filters each part in turn, so the queryset's order is kept |
| `Filters.KeepSubMultiset` | project_management/filters.py:84-90 | every filtered result is a sub-multiset of the queryset it came from |
| `Filters.BudgetLookups` | project_management/filters.py:32-46 | the budget filter offers five distinct codes, each of which has a band in `queryset` |
| `Filters.BudgetBand` | project_management/filters.py:49-70 | `queryset` has a band exactly for the codes '0'..'4'; every band starts at a non-negative amount and is non-empty; only code '4' has no upper bound |
| `Filters.BudgetQueryset` | project_management/filters.py:48-70 | the budget filter returns no queryset exactly for codes other than '0'..'4' (including no code); otherwise it keeps exactly the projects whose budget lies in that code's band |
| `Filters.CurrencyLookups` | project_management/filters.py:77-82 | the currency filter offers three distinct codes, each one of INR, USD and EUR |
| `Filters.CurrencyQueryset` | project_management/filters.py:84-90 | the currency filter returns no queryset exactly for codes other than 'INR', 'USD', 'EUR'; otherwise it keeps exactly the projects with that currency |
| `Filters.BandOf` | project_management/filters.py:49-70 | every non-negative budget lies in the band of some code, and a negative budget has no code |
| `Filters.BandUnique` | project_management/filters.py:49-70 | the five bands are pairwise disjoint: a budget lies only in the band of its own code |
| `Filters.NegativeInNoBand` | project_management/filters.py:49-70 | a negative budget lies in no band |
| `Filters.BudgetFiltersPartition` | project_management/filters.py:48-70 | over one queryset, each project with a non-negative budget is kept by exactly one budget code, and one with a negative budget by none |
| `Filters.BudgetLookupsMatchBranches` | project_management/filters.py:32-70 | a code is offered by `lookups` exactly when `queryset` has a branch for it |
| `Filters.CurrencyLookupsMatchBranches` | project_management/filters.py:77-90 | a currency code is offered by `lookups` exactly when `queryset` has a branch for it |
| `Filters.FiltersSelectFromInput` | project_management/filters.py:48-90 | whenever either filter applies, its result is drawn from the input records |
| `Workflow.LaterStagingWins` | project_management/admin.py:209-212 | staging a second non-empty selection replaces the first instead of adding to it |
| `Workflow.StagingNeverStoresEmpty` | project_management/admin.py:210-212 | the slot holds an empty key list after staging only if it already did and nothing was selected |
| `Workflow.StageThenSubmit` | project_management/views.py:24-27 | staging a non-empty selection of distinct rows and then submitting gives a List whose members are exactly the selected rows' keys, whose size is the number of rows, and whose message reports that size |
| `Workflow.ResubmitCreatesSecondList` | project_management/views.py:25 | submitting twice without restaging appends two equal Lists holding the staged keys, and the slot is left as it was |
| `Workflow.MissingSlotLeavesEmptyList` | project_management/views.py:22-25 | with no slot, the List is saved empty before iteration fails, with no message; a later staged submission adds a second List and keeps the empty one |
| `Workflow.EmptySelectionFromFreshSession` | project_management/admin.py:210-212 | staging nothing in a fresh session and submitting fails instead of reporting an empty List |
| `Workflow.Q3ShortlistRun` | project_management/views.py:13-35 | staging projects 7, 12 and 19 and submitting "Q3 Shortlist" redirects to the List admin, stores a List holding {7, 12, 19} by the acting user, and queues "Successfully added 3 projects to list Q3 Shortlist." |
| `Workflow.Q3ShortlistMessage` | project_management/views.py:29-34 | the message for 3 projects and the name "Q3 Shortlist" is exactly "Successfully added 3 projects to list Q3 Shortlist." |

## Left out

- Rendering: the confirmation page that `create_list` renders (form and selected projects) and the `None` a rejected request falls through to. They are template and framework output. Only the fact that no response object is produced is kept.
- `ListForm` validation. Its code is not part of this model, so whether the form accepts a submission is an input of the request (`formIsValid`). The cleaned `name` is taken as submitted.
- The framework's session, message and redirect machinery. The session is one slot, the message store is a queue of strings, and the redirect is its target path. CSRF protection and authentication are also left out.
- Referential integrity of `projects.add`: adding a key with no Project row raises a database error. The model treats `add` as set insertion.
- A database error part way through the attachment loop, which leaves a partly filled List. Transaction behaviour is left out too.
- Concurrent requests racing on the same session slot.
- Requests of other users between one user's chained requests. They can save Lists of their own in between; the `Workflow` lemmas assume no List is saved between the requests they chain.
- The `created_on` / `updated_on` timestamps that `save()` sets: clock input.
- The other model fields and their storage types (`MoneyField`'s 14-digit bound, country and phone fields, the MPTT domain tree). The HTML helpers on the models are also left out.
- `Admin.ExportAsExcel`: cells are the string each value is written as. CSV quoting and encoding are not modelled, nor are the response's content type and `Content-Disposition` header. Django's `getattr` on a field of the model's own metadata always succeeds, which the requires clause states.
- Currency conversion inside the money library. The budget filters compare the stored amount only, as the source's lookups do.
- The dropdown filter subclasses, which only swap a template. The declarative admin options (fieldsets, list displays, list filters, search fields, widget sizes), URL routing, WSGI start-up and migrations are also left out.
