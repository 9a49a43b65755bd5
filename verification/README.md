# DocuFlex core rules in Dafny

DocuFlex is a Flask application that keeps a fleet's regulatory documents (insurance, emission
certificate, permit, fitness certificate, road tax) and reminds owners before they expire. This
project models the parts of it that decide something:

- **the daily expiry scan** of `app/__init__.py` (`check_document_expirations`): every document in the table
  is loaded and handed to the notifier when `(end_date - now).days` lies in `[0, 10]`;
- **the scheduler's scan** of `scheduler.py` (`check_expiring_documents`): a query loads the documents
  with `end_date <= now + 10 days`, and the loop notifies each one whose end date is at most ten
  days after a fresh clock reading;
- **the document form** of `app/forms.py` (`DocumentForm`): the five document-type choices and
  `update_fields`, which resets the 22 detail fields to optional and then makes the chosen type's
  fields required, with a 16-digit rule on the insurance policy number;
- **the phone rule** of `RegistrationForm`: ten digits, no user already registered with the `+91` form,
  and the field's data rewritten to `+91` + digits after a successful `validate_on_submit`.

Modules, one per concern:

| file | module | models |
|---|---|---|
| `documents.dfy` | `Documents` | the `Document` record, time units, the order-keeping filter both scans use |
| `expirations.dfy` | `Expirations` | `check_document_expirations` |
| `scheduler.dfy` | `Scheduler` | `check_expiring_documents`, and how it differs from the daily scan |
| `digits.dfy` | `Digits` | the `^\d{n}$` patterns, as written and as intended |
| `registration.dfy` | `Registration` | the phone field of `RegistrationForm` |
| `document_form.dfy` | `DocumentForms` | `DocumentForm.document_type` and `DocumentForm.update_fields` |

Instants are integers counting microseconds, the resolution of Python's `datetime`. A day is
86 400 000 000 of them. `timedelta.days` rounds the difference down to whole days; Dafny's `/` by a
positive divisor does the same, so `DaysUntil` is `(end - now) / DAY`. Both scans import the
notifier, `notify_user`, from `app/routes.py`, which does not define it. Each scan therefore returns
the sequence of documents it would hand to the notifier, in call order, on the assumption that every
notifier call returns. The clock is a parameter. The daily scan reads it once.
The scheduler reads it once for the query (`queryTime`) and once per loop iteration (`clock(k)`).
The document store is a sequence value, so neither scan can write to it.

`update_fields` assigns each field's `validators` list. The form object holds one
`FieldValidators` record with one entry per field, and `UpdateFields` updates it entry by entry:
first the 22 resets, then the chosen arm. The rules of `DetailsAccepted` apply once
`update_fields(document_type)` has run. The routes `new_document` and `edit_document`
(`app/routes.py:93-94`, `app/routes.py:161-162`) call `validate_on_submit` and never `update_fields`, so
there all 22 detail fields keep the `[Optional()]` the constructor gives them. The `if`/`elif` chain on the type string is `BranchOf`.
`UpdateFields` dispatches on its result. `ValidatorFor` is the rule the arms are proved against: a
field is required exactly when it is declared in the chosen type's block of the form. The insurance
policy number also needs sixteen digits. For any type outside the choice list, the common serial
number and dates are required.

## Model

| member | source | states |
|---|---|---|
| `Documents.Select` | scheduler.py:13-15 | a filtered query result is no longer than the table it filters |
| `Documents.SelectIsSubsequence` | app/__init__.py:26-29 | filtering a list keeps its order and takes each entry at most as often as it occurs |
| `Documents.SelectMembership` | app/__init__.py:27-29 | a document is kept iff it is in the list and passes the test |
| `Documents.SelectAppend` | app/__init__.py:27-29 | filtering a concatenation gives the concatenation of the filtered parts, so each document's fate depends on it alone |
| `Expirations.DaysUntil` | app/__init__.py:28 | `(end - now).days` is the whole number of days `q` with `q * DAY <= end - now < (q + 1) * DAY` |
| `Expirations.DueForNotice` | app/__init__.py:28 | definition: `0 <= (end_date - now).days <= 10`; `Expirations.DueIffWithinElevenDays` proves it means `now <= end_date < now + 11 days` |
| `Expirations.Notified` | app/__init__.py:26-29 | definition: the loaded documents that pass `DueForNotice`, in load order; the loop `Expirations.CheckDocumentExpirations` is proved equal to it |
| `Expirations.DueIffWithinElevenDays` | app/__init__.py:28 | the test `0 <= days <= 10` holds iff `now <= end_date < now + 11 days` |
| `Expirations.CheckDocumentExpirations` | app/__init__.py:19-29 | the loop notifies exactly the loaded documents with `now <= end_date < now + 11 days`, as an order-preserving subsequence of the load, each at most once, never more notices than documents |
| `Expirations.ExpiredNeverNotified` | app/__init__.py:28 | a document whose end date is before `now`, even by one microsecond, is never notified |
| `Expirations.NotifiedPerDocument` | app/__init__.py:27-29 | the notices for a split list are the notices for each part, in order |
| `Expirations.WindowBoundaries` | app/__init__.py:28 | 10 days 23 hours ahead and exactly `now` are notified; 11 days ahead and one microsecond ago are not |
| `Scheduler.WithinThreshold` | scheduler.py:14 | definition: the query's filter `end_date <= queryTime + 10 days`, the boundary included; `Scheduler.BoundaryIncluded` checks both sides of it |
| `Scheduler.QueryExpiring` | scheduler.py:13-15 | definition: the documents with `end_date <= queryTime + 10 days`, in table order; its membership is `Documents.SelectMembership` |
| `Scheduler.Rechecked` | scheduler.py:17-19 | the loop's re-check, the k-th document against the k-th clock reading, returns no more documents than it is given and only documents it is given |
| `Scheduler.NotifiedAt` | scheduler.py:11-19 | definition: one run with every clock reading equal to `now`; `Scheduler.NotifiedAtMembership` proves which documents it notifies |
| `Scheduler.RecheckedIsSubsequence` | scheduler.py:17-19 | the loop's notices are an order-preserving subsequence of the query result, each at most once |
| `Scheduler.RecheckRedundant` | scheduler.py:12-18 | when no loop clock reading is earlier than the query's, the in-loop test rejects nothing the query admitted |
| `Scheduler.CheckExpiringDocuments` | scheduler.py:8-19 | the run notifies a subsequence of the query result, only documents with `end_date <= queryTime + 10 days`; with a clock that does not go back it notifies the whole query result |
| `Scheduler.NotifiedAtMembership` | scheduler.py:11-18 | with one clock reading, a document is notified iff `end_date <= now + 10 days`, the ten-day boundary included |
| `Scheduler.ExpiredAlwaysNotified` | scheduler.py:13-19 | there is no lower bound: a document that already expired is notified on every run |
| `Scheduler.CompareWithDailyScan` | scheduler.py:14-18 | at one instant, the daily scan alone notifies exactly the documents ending strictly between 10 and 11 days ahead; this scan alone notifies exactly the expired ones |
| `Scheduler.ExpiredDocumentSeparatesScans` | scheduler.py:14-18 | a document one microsecond past its end is notified by this scan and not by the daily one |
| `Scheduler.BoundaryIncluded` | scheduler.py:18 | exactly 10 days ahead is notified, 10 days and one microsecond ahead is not |
| `Digits.RegexAccepts` | app/forms.py:24 | definition: what `re.match(r"^\d{n}$", s)` accepts, `n` digits optionally followed by one newline; also the policy pattern at app/forms.py:178 |
| `Digits.RegexAcceptsExactly` | app/forms.py:24 | the pattern as Python applies it accepts exactly the n-digit strings and those strings followed by one newline |
| `Registration.PhoneFormatValid` | app/forms.py:24 | definition: exactly ten ASCII digits (intended rule; see Findings); `Registration.PrefixedPhoneFailsFormat` shows a prefixed value fails it |
| `Registration.Prefixed` | app/forms.py:56 | definition: `"+91"` followed by the entry, the value the duplicate check looks up and the one written back to the field; `Registration.PrefixRoundTrip` proves it is undone by `LocalNumber` |
| `Registration.PhoneFieldValid` | app/forms.py:20-25 | definition: the entry is exactly ten digits (intended rule; see Findings) and its `+91` form is not among the phones the lookup finds (app/forms.py:45-50) |
| `Registration.LocalNumber` | app/forms.py:56 | the part after `+91` of a prefixed phone is a valid ten-digit entry whose prefixed form is that value |
| `Registration.PrefixRoundTrip` | app/forms.py:52-57 | an entry is valid iff its `+91` form has the prefixed-phone shape, and stripping the prefix gives the entry back |
| `Registration.PrefixedPhoneShape` | app/forms.py:56 | the value written back for a valid entry is 13 characters long and starts with `+91` |
| `Registration.PrefixedPhoneFailsFormat` | app/forms.py:24 | a `+91` value fails the ten-digit rule, so a second submit never adds the prefix twice |
| `Registration.DuplicateCheckUsesPrefixedForm` | app/forms.py:45-50 | the duplicate check compares against the `+91` form: a raw ten-digit value among the registered phones never blocks, the prefixed one always does |
| `Registration.TrailingNewlinePhone` | app/forms.py:24 | as written, `"0123456789\n"` passes the phone pattern and would be written back as a 14-character value |
| `Registration.RegistrationForm.ValidateOnSubmit` | app/forms.py:52-57 | the result is true iff the request is a submission, the other fields pass and the phone passes format (intended rule; see Findings) and duplicate checks; on true the field becomes `+91` + the entry, otherwise it is unchanged |
| `Registration.SubmitTwice` | app/forms.py:52-57 | after a successful submit, a second submit of the same form fails and the field's data keeps a single prefix |
| `DocumentForms.BranchOf` | app/forms.py:176-201 | definition: the `if`/`elif` chain on the type string; `DocumentForms.FallbackIffNotAChoice` proves its arms are the five choices |
| `DocumentForms.ValidatorFor` | app/forms.py:114-147 | definition: required exactly when the field is declared in the chosen type's block, sixteen digits for the policy number; `DocumentForms.RequiredFieldsByType` writes the result out per type |
| `DocumentForms.Accepts` | app/forms.py:182 | definition of one field's validators: `Optional` passes anything parsed, zero included; `DataRequired` passes only a truthy value, so neither a blank entry nor an amount of zero; the 16-digit rule uses the intended pattern (see Findings) |
| `DocumentForms.DetailsAccepted` | app/forms.py:151-204 | definition: every detail field passes the validators `update_fields(document_type)` sets; `DocumentForms.DetailsAcceptedIff` proves what that means |
| `DocumentForms.FallbackIffNotAChoice` | app/forms.py:103-111 | `DOCUMENT_TYPE_CHOICES` is the select's choice list; the five named arms of `update_fields` are the five choices, each reaching its own arm; the fallback is taken iff the type is not a choice |
| `DocumentForms.RequiredFieldsByType` | app/forms.py:176-204 | Insurance requires exactly its five fields, Emission Certificate its three, Permit and Fitness Certificate their four, Road Tax its three, any other type exactly serial number, start date and end date |
| `DocumentForms.SixteenDigitRuleOnlyForPolicyNumber` | app/forms.py:176-182 | the 16-digit rule applies iff the type is Insurance and the field is the policy number |
| `DocumentForms.DetailsAcceptedIff` | app/forms.py:151-204 | once `update_fields(document_type)` has run, a submission's details pass iff nothing is malformed, every field of the chosen type's block is given as a non-blank, non-zero value, and an Insurance policy number is sixteen digits (intended rule; see Findings) |
| `DocumentForms.ZeroAmountRejected` | app/forms.py:182 | a coverage amount or road-tax amount of zero fails `DataRequired` for Insurance and for Road Tax (app/forms.py:199), and passes while the field is optional |
| `DocumentForms.PolicyNumberTrailingNewline` | app/forms.py:178 | as written, a sixteen-digit number followed by a newline passes the policy pattern; the intended rule rejects it |
| `DocumentForms.ArmState` | app/forms.py:176-204 | definition: the 22 validators each arm of `update_fields` leaves, written out arm by arm as the source assigns them; `DocumentForms.ArmStateGet` proves each agrees with `ValidatorFor` |
| `DocumentForms.ArmStateGet` | app/forms.py:176-204 | the state each arm leaves agrees field by field with the block rule |
| `DocumentForms.DocumentForm.constructor` | app/forms.py:114-147 | every detail field starts with the optional validator |
| `DocumentForms.DocumentForm.ResetValidators` | app/forms.py:152-174 | afterwards all 22 detail fields are optional |
| `DocumentForms.DocumentForm.UpdateFields` | app/forms.py:151-204 | afterwards each field holds the validator the block rule gives for the chosen type. The new state does not mention the old one, so a repeated call changes nothing and the last call wins |
| `DocumentForms.UpdateTwice` | app/forms.py:151-204 | after two calls the state is the one the second type alone determines |

## Left out

- Expirations.CheckDocumentExpirations: assumes every `notify_user` call returns. Neither loop catches an exception (app/__init__.py:27-29), so a failing notice ends the run and the due documents after it are not notified; as the files stand, the import of `notify_user` at app/__init__.py:23 fails before any document is loaded.
- Scheduler.CheckExpiringDocuments: assumes every `notify_user` call returns, as above (scheduler.py:17-19); a failing notice ends the run early, and the module-level import at scheduler.py:5 fails as the files stand.
- Email and SMS delivery (`app/notification_utils.py`, `app/email_utils.py`) are foreign network calls. `notify_user` is not part of this model; a scan's result is the list of documents it would pass to it.
- The APScheduler timers and their 24-hour interval (`app/__init__.py:56-58`, `scheduler.py:22-26`) are threading. Overlapping runs are not modelled.
- Expirations.CheckDocumentExpirations: models one run. Every run begins with `create_app()` (app/__init__.py:20), and each `create_app()` call starts a new `BackgroundScheduler` with one more 24-hour `check_document_expirations` job (app/__init__.py:56-58). The number of daily runs, and of `notify_user` calls for a document that stays due, therefore doubles every day. Line 20 runs before the failing import at line 23, so the jobs multiply even as the files stand.
- Scheduler.CheckExpiringDocuments: models one run. Each run also calls `create_app()` (scheduler.py:9), which registers one more daily `check_document_expirations` job in a new `BackgroundScheduler`, so the daily scan's runs grow by one with every run of this scan.
- The SQLAlchemy side is not modelled: models, `Document.query.all()`, commits. SQL without `ORDER BY` returns rows in no promised order; the model takes table order for both loads.
- `Expirations.CheckDocumentExpirations` and `Scheduler.CheckExpiringDocuments` take the loaded list as a sequence value. In-place changes to the table's rows and aliasing between row objects are not captured; the source writes nothing back anyway.
- The users table is not modelled. `validate_phone` looks up a `phone` column that the `User` model in `app/models.py` does not declare. As the files stand, `User.query.filter_by(phone=…)` raises in SQLAlchemy instead of finding no user, so `validate_on_submit` raises for every non-blank phone entry (a blank or whitespace-only entry stops at `DataRequired`, and `validate_phone` never runs). `register()` also builds the `User` without the phone (app/routes.py:49), so the prefixed value exists only in the field's data and nothing the shown code writes could make the duplicate check fire. `Registration.RegistrationForm.ValidateOnSubmit` models the form as if the column existed, and abstracts the lookup as membership in a set of registered phone values.
- The uniqueness checks `validate_username` and `validate_email` are database lookups. They are folded into the `otherFieldsValid` argument of `ValidateOnSubmit`, as are all other field validators of `RegistrationForm`.
- `Digits.IsDigit` accepts only ASCII digits. Python's `\d` on `str` also matches other Unicode decimal digits, such as Arabic-Indic ones; those entries are not modelled.
- WTForms parsing of `DateField` (`%Y-%m-%d`) and `FloatField` values is library behaviour. A field's input is modelled only as blank, malformed, an amount of zero (the one falsy value a `FloatField` parses to) or given; amounts are never computed with.
- The `document_type` field's own `DataRequired` validator is not part of the 22 detail fields. It is not modelled.
- Configuration, environment loading and action logging are not modelled: `app/config.py`, `config.py`, `test_env.py`, `app/utils.py`, `reset_db.py`. Routes and authentication in `app/routes.py` are left out as well.
- Other reminder policies, such as a 30-day window or a notice only every fifth day, do not occur in these files. They are not modelled.

## Findings

| source | as written | input that shows it | evidently intended | confidence | as-written member | corrected member |
|---|---|---|---|---|---|---|
| app/forms.py:24 | `Regexp(r"^\d{10}$")` runs through `re.match`, and `$` also matches before a final newline | phone `"0123456789\n"` passes and is rewritten to `"+910123456789\n"` (14 characters) | exactly ten digits, rewritten to 13 characters | medium, not executed (a browser text input strips newlines; a hand-made POST does not) | `Registration.TrailingNewlinePhone` | `Registration.PrefixRoundTrip` |
| app/forms.py:178 | `Regexp(r'^\d{16}$')` has the same trailing-newline gap | policy number `"1234567890123456\n"` passes | exactly sixteen digits | medium, not executed | `DocumentForms.PolicyNumberTrailingNewline` | `DocumentForms.DetailsAcceptedIff` |

The rest of the model uses the intended rule, `Digits.ExactDigits`. The as-written pattern is
`Digits.RegexAccepts`, and `Digits.RegexAcceptsExactly` states exactly how the two differ.
