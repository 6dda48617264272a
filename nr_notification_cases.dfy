/**
 * The parametrised cases of `test_nr_notification` and the assertions it
 * makes about each, with the proof that the resolver meets every one.
 *
 * Every known-action block and the common block list the same 22
 * (status, template name) rows; they are kept once, as `TemplateRows`.
 */
module NrNotificationCases {
  import opened Optional
  import opened TemplateNames
  import opened TemplateResolver

  /** The `expected_resource` column: "main", "common" or `None`. */
  datatype Expected = ExpectMain | ExpectCommon | ExpectNone

  datatype Case = Case(
    testName: string,
    requestAction: string,
    status: Option<string>,
    templateName: string,
    expected: Expected)

  /** The (status, template name) rows every action block lists, in order, by template. */
  const TemplateRows: seq<(Option<string>, string)> :=
    ApprovedRows + ConditionalRows + ConsentRows + BeforeExpiryRows + StatusFreeRows

  /** The template file each of `TemplateRows` spells. */
  const RowFiles: seq<TemplateFile> :=
    ApprovedFiles + ConditionalFiles + ConsentFiles + BeforeExpiryFiles + StatusFreeFiles

  // The rows of one block, grouped by logical template, with the file each spells.

  const ApprovedRows: seq<(Option<string>, string)> := [
    (Some("approved"), "approved-modernized.md"),
    (Some("approved"), "approved-colin.md"),
    (Some("approved"), "approved-so.md"),
    (Some("approved"), "approved.md")
  ]

  const ConditionalRows: seq<(Option<string>, string)> := [
    (Some("conditional"), "conditional-colin.md"),
    (Some("conditional"), "conditional-modernized.md"),
    (Some("conditional"), "conditional-so.md"),
    (Some("conditional"), "conditional.md")
  ]

  const ConsentRows: seq<(Option<string>, string)> := [
    (Some("consent"), "consent-colin.md"),
    (Some("consent"), "consent-modernized.md"),
    (Some("consent"), "consent-so.md"),
    (Some("consent"), "consent.md")
  ]

  const BeforeExpiryRows: seq<(Option<string>, string)> := [
    (Some("before-expiry"), "NR-BEFORE-EXPIRY-COLIN.html"),
    (Some("before-expiry"), "NR-BEFORE-EXPIRY-modernized.html"),
    (Some("before-expiry"), "NR-BEFORE-EXPIRY-so.html"),
    (Some("before-expiry"), "NR-BEFORE-EXPIRY.html")
  ]

  const StatusFreeRows: seq<(Option<string>, string)> := [
    (None, "NR-EXPIRED.html"),
    (None, "NR-PAID.html"),
    (None, "NR-REFUND.html"),
    (None, "NR-RENEWAL.html"),
    (None, "NR-UPGRADE.html"),
    (None, "rejected.md")
  ]

  const ApprovedFiles: seq<TemplateFile> := [
    TemplateFile(Approved, Modernized),
    TemplateFile(Approved, Colin),
    TemplateFile(Approved, So),
    TemplateFile(Approved, Plain)
  ]

  const ConditionalFiles: seq<TemplateFile> := [
    TemplateFile(Conditional, Colin),
    TemplateFile(Conditional, Modernized),
    TemplateFile(Conditional, So),
    TemplateFile(Conditional, Plain)
  ]

  const ConsentFiles: seq<TemplateFile> := [
    TemplateFile(Consent, Colin),
    TemplateFile(Consent, Modernized),
    TemplateFile(Consent, So),
    TemplateFile(Consent, Plain)
  ]

  const BeforeExpiryFiles: seq<TemplateFile> := [
    TemplateFile(BeforeExpiry, ColinUpper),
    TemplateFile(BeforeExpiry, Modernized),
    TemplateFile(BeforeExpiry, So),
    TemplateFile(BeforeExpiry, Plain)
  ]

  const StatusFreeFiles: seq<TemplateFile> := [
    TemplateFile(Expired, Plain),
    TemplateFile(Paid, Plain),
    TemplateFile(Refund, Plain),
    TemplateFile(Renewal, Plain),
    TemplateFile(Upgrade, Plain),
    TemplateFile(Rejected, Plain)
  ]

  /** One block of the table: every template row for one action, with one expectation. */
  function Block(testName: string, action: string, expected: Expected): seq<Case> {
    seq(|TemplateRows|, i requires 0 <= i < |TemplateRows| =>
      Case(testName, action, TemplateRows[i].0, TemplateRows[i].1, expected))
  }

  /** The whole parametrised table, block by block. */
  const Cases: seq<Case> :=
    Block("get_main_template", "AML", ExpectMain)
    + Block("get_main_template", "ASSUMED", ExpectMain)
    + Block("get_main_template", "CHG", ExpectMain)
    + Block("get_main_template", "CHG-ASSUM", ExpectMain)
    + Block("get_main_template", "CNV", ExpectMain)
    + Block("get_main_template", "DBA", ExpectMain)
    + Block("get_main_template", "MVE", ExpectMain)
    + Block("get_main_template", "NEW", ExpectMain)
    + Block("get_main_template", "NRO-NEWAML", ExpectMain)
    + Block("get_main_template", "NRO-REST", ExpectMain)
    + Block("get_main_template", "REH", ExpectMain)
    + Block("get_main_template", "REN", ExpectMain)
    + Block("get_main_template", "RESUBMIT", ExpectMain)
    + Block("get_main_template_from_common", "INVALID", ExpectCommon)
    + NoTemplateCases

  const NoTemplateCases: seq<Case> := [
    Case("no_template_with_valid_request_action", "AML", None, "invalid_name.md", ExpectNone),
    Case("no_template_with_valid_with_request_action", "AML", Some("approved"), "invalid_name.md", ExpectNone),
    Case("no_template", "INVALID", None, "invalid_name.md", ExpectNone)
  ]

  /**
   * The assertions `test_nr_notification` makes of one case: no expected
   * resource means no result and the ERROR log among the logger's calls;
   * otherwise a result, and for "common" exactly one call, the DEBUG log.
   */
  predicate Passes(c: Case) {
    var r := Resolve(c.requestAction, c.templateName, c.status);
    match c.expected
    case ExpectNone =>
      r.outcome == NotFound
      && LogEvent(Error, FailureMessage(c.requestAction, c.status, c.templateName)) in r.logs
    case ExpectMain => r.outcome != NotFound
    case ExpectCommon =>
      r.outcome != NotFound
      && r.logs == [LogEvent(Debug, FallbackMessage(c.requestAction, c.status, c.templateName))]
  }

  /** Each group's rows spell its files, row by row. */
  lemma ApprovedRowsSpellFiles(k: nat)
    requires k < |ApprovedRows|
    ensures k < |ApprovedFiles|
    ensures ApprovedRows[k] == (StatusOf(ApprovedFiles[k].template), FileName(ApprovedFiles[k]))
  {
    if k == 0 {
      assert FileName(TemplateFile(Approved, Modernized)) == "approved-modernized.md";
    } else if k == 1 {
      assert FileName(TemplateFile(Approved, Colin)) == "approved-colin.md";
    } else if k == 2 {
      assert FileName(TemplateFile(Approved, So)) == "approved-so.md";
    } else if k == 3 {
      assert FileName(TemplateFile(Approved, Plain)) == "approved.md";
    }
  }

  lemma ConditionalRowsSpellFiles(k: nat)
    requires k < |ConditionalRows|
    ensures k < |ConditionalFiles|
    ensures ConditionalRows[k] == (StatusOf(ConditionalFiles[k].template), FileName(ConditionalFiles[k]))
  {
    if k == 0 {
      assert FileName(TemplateFile(Conditional, Colin)) == "conditional-colin.md";
    } else if k == 1 {
      assert FileName(TemplateFile(Conditional, Modernized)) == "conditional-modernized.md";
    } else if k == 2 {
      assert FileName(TemplateFile(Conditional, So)) == "conditional-so.md";
    } else if k == 3 {
      assert FileName(TemplateFile(Conditional, Plain)) == "conditional.md";
    }
  }

  lemma ConsentRowsSpellFiles(k: nat)
    requires k < |ConsentRows|
    ensures k < |ConsentFiles|
    ensures ConsentRows[k] == (StatusOf(ConsentFiles[k].template), FileName(ConsentFiles[k]))
  {
    if k == 0 {
      assert FileName(TemplateFile(Consent, Colin)) == "consent-colin.md";
    } else if k == 1 {
      assert FileName(TemplateFile(Consent, Modernized)) == "consent-modernized.md";
    } else if k == 2 {
      assert FileName(TemplateFile(Consent, So)) == "consent-so.md";
    } else if k == 3 {
      assert FileName(TemplateFile(Consent, Plain)) == "consent.md";
    }
  }

  lemma BeforeExpiryRowsSpellFiles(k: nat)
    requires k < |BeforeExpiryRows|
    ensures k < |BeforeExpiryFiles|
    ensures BeforeExpiryRows[k] == (StatusOf(BeforeExpiryFiles[k].template), FileName(BeforeExpiryFiles[k]))
  {
    if k == 0 {
      assert FileName(TemplateFile(BeforeExpiry, ColinUpper)) == "NR-BEFORE-EXPIRY-COLIN.html";
    } else if k == 1 {
      assert FileName(TemplateFile(BeforeExpiry, Modernized)) == "NR-BEFORE-EXPIRY-modernized.html";
    } else if k == 2 {
      assert FileName(TemplateFile(BeforeExpiry, So)) == "NR-BEFORE-EXPIRY-so.html";
    } else if k == 3 {
      assert FileName(TemplateFile(BeforeExpiry, Plain)) == "NR-BEFORE-EXPIRY.html";
    }
  }

  lemma StatusFreeRowsSpellFiles(k: nat)
    requires k < |StatusFreeRows|
    ensures k < |StatusFreeFiles|
    ensures StatusFreeRows[k] == (StatusOf(StatusFreeFiles[k].template), FileName(StatusFreeFiles[k]))
  {
    if k == 0 {
      assert FileName(TemplateFile(Expired, Plain)) == "NR-EXPIRED.html";
    } else if k == 1 {
      assert FileName(TemplateFile(Paid, Plain)) == "NR-PAID.html";
    } else if k == 2 {
      assert FileName(TemplateFile(Refund, Plain)) == "NR-REFUND.html";
    } else if k == 3 {
      assert FileName(TemplateFile(Renewal, Plain)) == "NR-RENEWAL.html";
    } else if k == 4 {
      assert FileName(TemplateFile(Upgrade, Plain)) == "NR-UPGRADE.html";
    } else if k == 5 {
      assert FileName(TemplateFile(Rejected, Plain)) == "rejected.md";
    }
  }

  /** Each tabulated row is a spelling of a template file, listed under that template's status. */
  lemma RowSpellsTemplateFile(k: nat)
    requires k < |TemplateRows|
    ensures k < |RowFiles|
    ensures TemplateRows[k] == (StatusOf(RowFiles[k].template), FileName(RowFiles[k]))
  {
    if k < 4 {
      ApprovedRowsSpellFiles(k);
    } else if k < 8 {
      ConditionalRowsSpellFiles(k - 4);
    } else if k < 12 {
      ConsentRowsSpellFiles(k - 8);
    } else if k < 16 {
      BeforeExpiryRowsSpellFiles(k - 12);
    } else {
      StatusFreeRowsSpellFiles(k - 16);
    }
  }

  /** Every row of a known action's block resolves from that action's own template set. */
  lemma KnownActionBlockPasses(action: string)
    requires action in KnownActions
    ensures forall c :: c in Block("get_main_template", action, ExpectMain) ==>
      Passes(c) && Resolve(c.requestAction, c.templateName, c.status).outcome == Main
  {
    var b := Block("get_main_template", action, ExpectMain);
    forall i | 0 <= i < |b|
      ensures Passes(b[i]) && Resolve(b[i].requestAction, b[i].templateName, b[i].status).outcome == Main
    {
      RowSpellsTemplateFile(i);
      KnownActionResolvesMain(action, RowFiles[i]);
    }
  }

  /** Every row of the `INVALID` block falls back to the common set with one DEBUG log. */
  lemma CommonBlockPasses()
    ensures forall c :: c in Block("get_main_template_from_common", "INVALID", ExpectCommon) ==>
      Passes(c) && Resolve(c.requestAction, c.templateName, c.status).outcome == Common
  {
    var b := Block("get_main_template_from_common", "INVALID", ExpectCommon);
    forall i | 0 <= i < |b|
      ensures Passes(b[i]) && Resolve(b[i].requestAction, b[i].templateName, b[i].status).outcome == Common
    {
      RowSpellsTemplateFile(i);
      UnknownActionFallsBack("INVALID", RowFiles[i]);
    }
  }

  /** `invalid_name.md` resolves to nothing with the ERROR log, for a known and an unknown action. */
  lemma NoTemplateCasesPass()
    ensures forall c :: c in NoTemplateCases ==> Passes(c)
  {
    assert Parse("invalid_name.md") == None;
  }

  /** Every case of the parametrised table passes its assertions. */
  lemma AllCasesPass()
    ensures |Cases| == 14 * 22 + 3
    ensures forall c :: c in Cases ==> Passes(c)
  {
    forall a | a in KnownActions
      ensures forall c :: c in Block("get_main_template", a, ExpectMain) ==> Passes(c)
    {
      KnownActionBlockPasses(a);
    }
    CommonBlockPasses();
    NoTemplateCasesPass();
  }
}
