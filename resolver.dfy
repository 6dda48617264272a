/**
 * The notification-template resolver, `get_main_template(request_action,
 * template_name, status)` of the name-request emailer.
 *
 * A two-tier, stateless lookup: a known request action looks the
 * (logical template, status) pair up in its own mapping; an unknown action
 * falls back to the common mapping with one DEBUG log; anything that is not
 * recognised resolves to nothing, with an ERROR log. The template path the
 * source returns is abstracted to the tier it comes from.
 */
module TemplateResolver {
  import opened Optional
  import opened TemplateNames

  /** Which template set a notification is rendered from; `NotFound` is the source's `None`. */
  datatype Outcome = Main | Common | NotFound

  datatype Level = Debug | Error

  /** One call of the structured logger: a level and a message. */
  datatype LogEvent = LogEvent(level: Level, message: string)

  /** What a call returns, together with the log calls it made, in order. */
  datatype Resolution = Resolution(outcome: Outcome, logs: seq<LogEvent>)

  /** A mapping entry: a logical template under a request status (`None` for status-independent notices). */
  datatype Key = Key(template: Template, status: Option<string>)

  /** The request actions that have their own template mapping. */
  const KnownActions: set<string> := {
    "AML", "ASSUMED", "CHG", "CHG-ASSUM", "CNV", "DBA", "MVE",
    "NEW", "NRO-NEWAML", "NRO-REST", "REH", "REN", "RESUBMIT"
  }

  /** The (template, status) pairs a name-request mapping recognises. */
  const NameRequestKeys: set<Key> := {
    Key(Approved, Some("approved")),
    Key(Conditional, Some("conditional")),
    Key(Consent, Some("consent")),
    Key(BeforeExpiry, Some("before-expiry")),
    Key(Expired, None),
    Key(Paid, None),
    Key(Refund, None),
    Key(Renewal, None),
    Key(Upgrade, None),
    Key(Rejected, None)
  }

  /** The per-action mappings, one for each known action. */
  const ActionMappings: map<string, set<Key>> := map[
    "AML" := NameRequestKeys,
    "ASSUMED" := NameRequestKeys,
    "CHG" := NameRequestKeys,
    "CHG-ASSUM" := NameRequestKeys,
    "CNV" := NameRequestKeys,
    "DBA" := NameRequestKeys,
    "MVE" := NameRequestKeys,
    "NEW" := NameRequestKeys,
    "NRO-NEWAML" := NameRequestKeys,
    "NRO-REST" := NameRequestKeys,
    "REH" := NameRequestKeys,
    "REN" := NameRequestKeys,
    "RESUBMIT" := NameRequestKeys
  ]

  /** The action-agnostic mapping consulted for an unknown action. */
  const CommonMapping: set<Key> := NameRequestKeys

  /** The status a logical template is sent under. */
  function StatusOf(t: Template): Option<string> {
    match t
    case Approved => Some("approved")
    case Conditional => Some("conditional")
    case Consent => Some("consent")
    case BeforeExpiry => Some("before-expiry")
    case _ => None
  }

  /** How a Python f-string renders the optional status. */
  function StatusText(status: Option<string>): string {
    match status
    case None => "None"
    case Some(s) => s
  }

  function FailureMessage(action: string, status: Option<string>, templateName: string): string {
    "Failed to get " + action + ", " + StatusText(status) + ", " + templateName + " email template"
  }

  function FallbackMessage(action: string, status: Option<string>, templateName: string): string {
    "Not Found the template from " + action + "/" + StatusText(status) + "/" + templateName
  }

  /** An ERROR message can never be mistaken for a DEBUG fallback message, whatever the inputs. */
  lemma LogMessagesNeverCoincide(a1: string, s1: Option<string>, n1: string, a2: string, s2: Option<string>, n2: string)
    ensures FailureMessage(a1, s1, n1) != FallbackMessage(a2, s2, n2)
  {
    assert FailureMessage(a1, s1, n1)[0] == 'F';
    assert FallbackMessage(a2, s2, n2)[0] == 'N';
  }

  /** The name-request mapping recognises a pair exactly when the status is the template's own. */
  lemma NameRequestKeysMatchStatus(t: Template, status: Option<string>)
    ensures Key(t, status) in NameRequestKeys <==> status == StatusOf(t)
  {
  }

  /** The mappings are configured for exactly the known actions. */
  lemma ActionMappingsCoverKnownActions()
    ensures ActionMappings.Keys == KnownActions
  {
  }

  /** The pair a template file name and status look up, if the name is recognised. */
  function LookupKey(templateName: string, status: Option<string>): Option<Key> {
    match Normalize(templateName)
    case None => None
    case Some(t) => Some(Key(t, status))
  }

  /**
   * Resolves the template set for a notification. A known action is never
   * served from the common set and an unknown one never from a main set;
   * a common result logs exactly one DEBUG fallback message and a failure
   * logs the ERROR message.
   */
  function Resolve(action: string, templateName: string, status: Option<string>): (r: Resolution)
    ensures r.outcome == Main ==> action in KnownActions
    ensures r.outcome == Common ==> action !in KnownActions
    ensures r.outcome == Common ==> r.logs == [LogEvent(Debug, FallbackMessage(action, status, templateName))]
    ensures r.outcome == NotFound ==> LogEvent(Error, FailureMessage(action, status, templateName)) in r.logs
    ensures r.outcome != NotFound ==> Normalize(templateName).Some?
  {
    var key := LookupKey(templateName, status);
    if action in ActionMappings then
      if key.Some? && key.value in ActionMappings[action] then Resolution(Main, [])
      else Resolution(NotFound, [LogEvent(Error, FailureMessage(action, status, templateName))])
    else if key.Some? && key.value in CommonMapping then
      Resolution(Common, [LogEvent(Debug, FallbackMessage(action, status, templateName))])
    else Resolution(NotFound, [LogEvent(Error, FailureMessage(action, status, templateName))])
  }

  /** A known action resolves every spelling of every template under that template's status from its own set. */
  lemma KnownActionResolvesMain(action: string, f: TemplateFile)
    requires action in KnownActions
    ensures Resolve(action, FileName(f), StatusOf(f.template)).outcome == Main
  {
    ParseFileName(f);
    NameRequestKeysMatchStatus(f.template, StatusOf(f.template));
  }

  /** An unknown action falls back to the common set for the same pairs, logging one DEBUG message. */
  lemma UnknownActionFallsBack(action: string, f: TemplateFile)
    requires action !in KnownActions
    ensures var name := FileName(f);
      Resolve(action, name, StatusOf(f.template))
      == Resolution(Common, [LogEvent(Debug, FallbackMessage(action, StatusOf(f.template), name))])
  {
    ParseFileName(f);
    NameRequestKeysMatchStatus(f.template, StatusOf(f.template));
  }

  /** The display variant never changes the outcome, for known and unknown actions alike. */
  lemma VariantNeverChangesOutcome(action: string, status: Option<string>, t: Template, v1: Variant, v2: Variant)
    ensures Resolve(action, FileName(TemplateFile(t, v1)), status).outcome
         == Resolve(action, FileName(TemplateFile(t, v2)), status).outcome
  {
    ParseFileName(TemplateFile(t, v1));
    ParseFileName(TemplateFile(t, v2));
  }

  /** A name that is no template's spelling resolves to nothing and logs the ERROR message, whatever the action. */
  lemma UnrecognisedNameNotFound(action: string, templateName: string, status: Option<string>)
    requires forall f :: FileName(f) != templateName
    ensures var r := Resolve(action, templateName, status);
      r.outcome == NotFound && LogEvent(Error, FailureMessage(action, status, templateName)) in r.logs
  {
  }
}
