# Notification-template resolver of the name-request emailer

This project models `get_main_template(request_action, template_name, status)` from the
namex emailer service. The emailer uses it to pick the template a name-request
notification is rendered from. The lookup is stateless and has two tiers:

- The template file name is normalised first. It drops its extension (`.md`,
  `.html`) and at most one display-variant suffix: `-colin`, `-COLIN`,
  `-modernized` or `-so`. What is left is a logical template, such as
  `approved` or `NR-BEFORE-EXPIRY`.
- One of the 13 known request actions (AML, ASSUMED, CHG, CHG-ASSUM, CNV, DBA, MVE,
  NEW, NRO-NEWAML, NRO-REST, REH, REN, RESUBMIT) looks up the pair
  (logical template, status) in its own mapping. A hit gives a template from the
  main set.
- An unknown action looks up the same pair in the common mapping. A hit gives a
  template from the common set and makes one DEBUG log call:
  `Not Found the template from {action}/{status}/{template_name}`.
- Anything else gives `None` and an ERROR log call:
  `Failed to get {action}, {status}, {template_name} email template`.

The recognised pairs are `approved`, `conditional` and `consent` (`.md`) under the status
of the same name, and `NR-BEFORE-EXPIRY` (`.html`) under `before-expiry`. They also
include `NR-EXPIRED`, `NR-PAID`, `NR-REFUND`, `NR-RENEWAL`, `NR-UPGRADE` (`.html`) and
`rejected` (`.md`), all under no status (Python `None`).

The module that implements the resolver, `namex_emailer.email_processors`, is not
part of this model. Its behaviour is fixed here by the parametrised test
`test_nr_notification` and its assertions. `NrNotificationCases` carries that test
table as data, and `AllCasesPass` proves that the model meets every row.

Files:
- `template_names.dfy`: module `Optional` (Python's `None`) and module
  `TemplateNames`. The latter covers logical templates, display variants, and
  file-name parsing and printing.
- `resolver.dfy`: module `TemplateResolver`. It holds the known actions, the per-action
  and common mappings, the log messages, and `Resolve` with its properties.
- `nr_notification_cases.dfy`: module `NrNotificationCases`. It holds the test table,
  the assertions of `test_nr_notification` as a predicate, and the proofs that the
  table passes.

The resolver returns a template path as a string. The model returns instead the tier
the path comes from: `Main`, `Common`, or `NotFound` for `None`. It also returns the
list of log calls, as `Resolution(outcome, logs)`. Being a function, `Resolve` is
deterministic: two calls with the same inputs give the same outcome and the same
log messages.

## Model

| member | source | states |
|---|---|---|
| `TemplateNames.Parse` | services/emailer/tests/unit/email_processors/test_get_template.py:29-50 | a name the normaliser accepts is exactly the file name (base, variant suffix, extension) of the template file it returns |
| `TemplateNames.Normalize` | services/emailer/tests/unit/email_processors/test_get_template.py:29-44 | the logical template of a name, with the display variant dropped; defined exactly when parsing succeeds, and then some variant of that template spells the name |
| `TemplateNames.ParseFileName` | services/emailer/tests/unit/email_processors/test_get_template.py:29-50 | every spelling of every logical template, in every display variant, is recognised as that template and that variant |
| `TemplateNames.ParseAcceptsExactlyFileNames` | services/emailer/tests/unit/email_processors/test_get_template.py:41-44 | a name is accepted if and only if it is the spelling of some template file, so only the listed suffix spellings are normalised |
| `TemplateNames.SuffixesUnambiguous` | services/emailer/tests/unit/email_processors/test_get_template.py:29-44 | no name can end in two different variant suffixes, so stripping never has to choose |
| `TemplateNames.StripAppendedVariant` | services/emailer/tests/unit/email_processors/test_get_template.py:29-44 | stripping removes exactly the variant suffix that was appended, whatever base precedes it |
| `TemplateNames.SplitExtension` | services/emailer/tests/unit/email_processors/test_get_template.py:29-50 | the stem and the extension split off put back together give the name |
| `TemplateNames.StripVariant` | services/emailer/tests/unit/email_processors/test_get_template.py:29-44 | the base and the stripped variant's suffix put back together give the stem |
| `TemplateNames.TemplateOf` | services/emailer/tests/unit/email_processors/test_get_template.py:29-50 | a template found for a base and extension has that base name and that extension |
| `TemplateResolver.StatusText` | services/emailer/tests/unit/email_processors/test_get_template.py:365 | how the f-strings render the status: the status string itself, or `None` when there is no status |
| `TemplateResolver.FailureMessage` | services/emailer/tests/unit/email_processors/test_get_template.py:365 | the ERROR message `Failed to get {action}, {status}, {template_name} email template` |
| `TemplateResolver.FallbackMessage` | services/emailer/tests/unit/email_processors/test_get_template.py:371 | the DEBUG message `Not Found the template from {action}/{status}/{template_name}` |
| `TemplateResolver.LogMessagesNeverCoincide` | services/emailer/tests/unit/email_processors/test_get_template.py:364-371 | no ERROR message equals any DEBUG fallback message, whatever the action, status and name: they differ in their first character |
| `TemplateResolver.NameRequestKeysMatchStatus` | services/emailer/tests/unit/email_processors/test_get_template.py:29-50 | a mapping recognises (template, status) exactly when the status is the template's own: approved/conditional/consent/before-expiry, or none for the status-independent notices |
| `TemplateResolver.ActionMappingsCoverKnownActions` | services/emailer/tests/unit/email_processors/test_get_template.py:29-326 | the per-action mappings exist for exactly the 13 known actions |
| `TemplateResolver.Resolve` | services/emailer/tests/unit/email_processors/test_get_template.py:360-372 | a main result only for a known action and a common one only for an unknown action; a common result makes exactly one log call, the DEBUG fallback message; no result comes with the ERROR failure message among the log calls; any result means the name was recognised |
| `TemplateResolver.KnownActionResolvesMain` | services/emailer/tests/unit/email_processors/test_get_template.py:29-326 | for every known action, every spelling of every template under its own status resolves from the main set |
| `TemplateResolver.UnknownActionFallsBack` | services/emailer/tests/unit/email_processors/test_get_template.py:328-349 | for every unknown action, the same pairs resolve from the common set, and the only log call is the DEBUG message `Not Found the template from {action}/{status}/{template_name}` |
| `TemplateResolver.VariantNeverChangesOutcome` | services/emailer/tests/unit/email_processors/test_get_template.py:328-343 | for any action and status, every display variant of one template (plain, `-colin`, `-COLIN`, `-modernized`, `-so`) gives the same outcome |
| `TemplateResolver.UnrecognisedNameNotFound` | services/emailer/tests/unit/email_processors/test_get_template.py:351-366 | for any action, known or not, and any status, a name that spells no template gives no result and the ERROR message `Failed to get {action}, {status}, {template_name} email template` |
| `NrNotificationCases.Cases` | services/emailer/tests/unit/email_processors/test_get_template.py:26-353 | the parametrised table, row for row: 13 known-action blocks and the `INVALID` block of the same 22 (status, template name) rows, then the three `invalid_name.md` rows |
| `NrNotificationCases.Passes` | services/emailer/tests/unit/email_processors/test_get_template.py:362-372 | the assertions of `test_nr_notification` for one case. With no expected resource: no result, and the ERROR message among the log calls. Otherwise: a result. For "common": also exactly one log call, the DEBUG message |
| `NrNotificationCases.RowSpellsTemplateFile` | services/emailer/tests/unit/email_processors/test_get_template.py:29-50 | each of the 22 (status, template name) rows of a block spells a template file listed under that template's status |
| `NrNotificationCases.KnownActionBlockPasses` | services/emailer/tests/unit/email_processors/test_get_template.py:29-326 | every row of a known action's block passes the test's assertions and resolves from the main set |
| `NrNotificationCases.CommonBlockPasses` | services/emailer/tests/unit/email_processors/test_get_template.py:328-349 | every row of the `INVALID` block gives a result from the common set, with the single DEBUG log call the test asserts |
| `NrNotificationCases.NoTemplateCasesPass` | services/emailer/tests/unit/email_processors/test_get_template.py:351-366 | `invalid_name.md` under AML with no status, under AML with `approved`, and under INVALID gives `None` with the ERROR message among the log calls |
| `NrNotificationCases.AllCasesPass` | services/emailer/tests/unit/email_processors/test_get_template.py:26-372 | all 311 cases of the parametrised table (14 blocks of 22 rows and 3 no-template rows) pass the assertions of `test_nr_notification` |

## Left out

- The resolver's own module, `namex_emailer.email_processors`, is not part of this model. The model rebuilds the resolver from the test table and its assertions.
- The concrete template paths returned and the template contents. A result is modelled as the tier it comes from, because the test only checks that the result is a string.
- The Flask `request` object passed to the logger and the `structured_log` sink. A log call is modelled as a returned event: a level and a message.
- Resolve: on a main result the model makes no log calls, but no member claims it, because the test does not assert it.
- Resolve: on a failure the model makes exactly one ERROR call, but the contracts only claim that the ERROR message is among the calls, as the test's `assert_any_call` does.
- Resolve: a recognised name under a status that is not its own (such as `approved` with `consent.md`) gives `NotFound` in the model. No member claims this, because the test table has no such row.
- Parse: both colin spellings (`-colin`, `-COLIN`) are accepted for every template, and the status-independent notices accept the variant suffixes too. The table shows only lowercase `-colin` on `.md` names, uppercase `-COLIN` on `.html` names, and no variant on the status-independent names. The model treats all variants of one template alike.
- Parse: only the `.md` and `.html` extensions are recognised, and each template only under its own extension. `approved`, `conditional`, `consent` and `rejected` take `.md`; the `NR-` notices take `.html`. So `approved.html` and `NR-PAID.md` are rejected. The table neither shows nor excludes these spellings. `ParseAcceptsExactlyFileNames` states this choice.
- The two database migrations (the payment-societies table and the users' login-source column). They are schema changes with no logic of their own.
- The pytest and mocker fixtures and the unused imports of the test module.
