/** Optional values: Python's `None` or a present value. */
module Optional {
  datatype Option<+T> = None | Some(value: T)
}

/**
 * Notification template file names.
 *
 * A template file name is made of a logical template's base name, a
 * cosmetic display-variant suffix (which front end the request came from)
 * and the template's file extension, e.g. `approved-colin.md` or
 * `NR-BEFORE-EXPIRY-modernized.html`. The variant never matters to the
 * resolver, so parsing recovers the logical template and the variant.
 */
module TemplateNames {
  import opened Optional

  /** The logical templates a name-request notification can use. */
  datatype Template =
    | Approved | Conditional | Consent | BeforeExpiry
    | Expired | Paid | Refund | Renewal | Upgrade | Rejected

  /** Display variants: none, the legacy COLIN front end (two spellings), the modernized UI, and SO. */
  datatype Variant = Plain | Colin | ColinUpper | Modernized | So

  /** A template file: one logical template in one display variant. */
  datatype TemplateFile = TemplateFile(template: Template, variant: Variant)

  function BaseName(t: Template): string {
    match t
    case Approved => "approved"
    case Conditional => "conditional"
    case Consent => "consent"
    case BeforeExpiry => "NR-BEFORE-EXPIRY"
    case Expired => "NR-EXPIRED"
    case Paid => "NR-PAID"
    case Refund => "NR-REFUND"
    case Renewal => "NR-RENEWAL"
    case Upgrade => "NR-UPGRADE"
    case Rejected => "rejected"
  }

  function Extension(t: Template): string {
    match t
    case Approved | Conditional | Consent | Rejected => ".md"
    case _ => ".html"
  }

  function Suffix(v: Variant): string {
    match v
    case Plain => ""
    case Colin => "-colin"
    case ColinUpper => "-COLIN"
    case Modernized => "-modernized"
    case So => "-so"
  }

  /** The file name under which a template file is requested. */
  function FileName(f: TemplateFile): string {
    BaseName(f.template) + Suffix(f.variant) + Extension(f.template)
  }

  predicate EndsWith(s: string, tail: string) {
    |tail| <= |s| && s[|s| - |tail|..] == tail
  }

  /** Splits a recognised extension off `name`; any other name keeps an empty extension. */
  function SplitExtension(name: string): (r: (string, string))
    ensures r.0 + r.1 == name
  {
    if EndsWith(name, ".html") then (name[..|name| - 5], ".html")
    else if EndsWith(name, ".md") then (name[..|name| - 3], ".md")
    else (name, "")
  }

  /** Strips at most one display-variant suffix off a stem. */
  function StripVariant(stem: string): (r: (string, Variant))
    ensures r.0 + Suffix(r.1) == stem
  {
    if EndsWith(stem, "-colin") then (stem[..|stem| - 6], Colin)
    else if EndsWith(stem, "-COLIN") then (stem[..|stem| - 6], ColinUpper)
    else if EndsWith(stem, "-modernized") then (stem[..|stem| - 11], Modernized)
    else if EndsWith(stem, "-so") then (stem[..|stem| - 3], So)
    else (stem, Plain)
  }

  /** The logical template whose base name and extension are these, if any. */
  function TemplateOf(base: string, ext: string): (r: Option<Template>)
    ensures r.Some? ==> BaseName(r.value) == base && Extension(r.value) == ext
  {
    if ext == ".md" then
      if base == "approved" then Some(Approved)
      else if base == "conditional" then Some(Conditional)
      else if base == "consent" then Some(Consent)
      else if base == "rejected" then Some(Rejected)
      else None
    else if ext == ".html" then
      if base == "NR-BEFORE-EXPIRY" then Some(BeforeExpiry)
      else if base == "NR-EXPIRED" then Some(Expired)
      else if base == "NR-PAID" then Some(Paid)
      else if base == "NR-REFUND" then Some(Refund)
      else if base == "NR-RENEWAL" then Some(Renewal)
      else if base == "NR-UPGRADE" then Some(Upgrade)
      else None
    else None
  }

  /**
   * Normalises a template file name: strips the extension and the display
   * variant and looks the rest up. A name it accepts is exactly the file
   * name of what it returns.
   */
  function Parse(name: string): (r: Option<TemplateFile>)
    ensures r.Some? ==> FileName(r.value) == name
  {
    var (stem, ext) := SplitExtension(name);
    var (base, v) := StripVariant(stem);
    match TemplateOf(base, ext)
    case None => None
    case Some(t) => Some(TemplateFile(t, v))
  }

  /** The logical template a file name stands for, with the variant dropped. */
  function Normalize(name: string): (r: Option<Template>)
    ensures r.Some? <==> Parse(name).Some?
    ensures r.Some? ==> exists v :: FileName(TemplateFile(r.value, v)) == name
  {
    match Parse(name)
    case None => None
    case Some(f) => Some(f.template)
  }

  /** No two variant suffixes can both end the same name, so stripping is never ambiguous. */
  lemma SuffixesUnambiguous(s: string, v1: Variant, v2: Variant)
    requires v1 != Plain && v2 != Plain
    requires EndsWith(s, Suffix(v1)) && EndsWith(s, Suffix(v2))
    ensures v1 == v2
  {
    assert s[|s| - 1] == Suffix(v1)[|Suffix(v1)| - 1];
    assert s[|s| - 1] == Suffix(v2)[|Suffix(v2)| - 1];
  }

  lemma EndsWithAppend(a: string, b: string)
    ensures EndsWith(a + b, b)
  {
  }

  /** A name ending in `tail` ends in any other string only if the two agree on their last character. */
  lemma LastCharOfEnd(s: string, tail: string, other: string)
    requires tail != [] && other != [] && EndsWith(s, tail) && EndsWith(s, other)
    ensures tail[|tail| - 1] == other[|other| - 1]
  {
  }

  lemma SplitFileName(f: TemplateFile)
    ensures SplitExtension(FileName(f)) == (BaseName(f.template) + Suffix(f.variant), Extension(f.template))
  {
    var stem := BaseName(f.template) + Suffix(f.variant);
    var ext := Extension(f.template);
    EndsWithAppend(stem, ext);
    if ext == ".md" && EndsWith(stem + ext, ".html") {
      LastCharOfEnd(stem + ext, ext, ".html");
    }
  }

  /** Stripping removes exactly the variant suffix that was appended, whatever precedes it. */
  lemma StripAppendedVariant(base: string, v: Variant)
    requires v != Plain
    ensures StripVariant(base + Suffix(v)) == (base, v)
  {
    var stem := base + Suffix(v);
    EndsWithAppend(base, Suffix(v));
    if EndsWith(stem, "-colin") { SuffixesUnambiguous(stem, v, Colin); }
    if EndsWith(stem, "-COLIN") { SuffixesUnambiguous(stem, v, ColinUpper); }
    if EndsWith(stem, "-modernized") { SuffixesUnambiguous(stem, v, Modernized); }
    if EndsWith(stem, "-so") { SuffixesUnambiguous(stem, v, So); }
  }

  /** No base name ends in a variant suffix, so a plain name is left whole. */
  lemma StripBaseName(t: Template)
    ensures StripVariant(BaseName(t)) == (BaseName(t), Plain)
  {
  }

  lemma StripFileStem(f: TemplateFile)
    ensures StripVariant(BaseName(f.template) + Suffix(f.variant)) == (BaseName(f.template), f.variant)
  {
    if f.variant == Plain {
      assert BaseName(f.template) + Suffix(f.variant) == BaseName(f.template);
      StripBaseName(f.template);
    } else {
      StripAppendedVariant(BaseName(f.template), f.variant);
    }
  }

  /** Each template is found again from its own base name and extension. */
  lemma TemplateOfBaseName(t: Template)
    ensures TemplateOf(BaseName(t), Extension(t)) == Some(t)
  {
  }

  /** Parsing inverts FileName: every spelling of every template is recognised as itself. */
  lemma {:induction false} ParseFileName(f: TemplateFile)
    ensures Parse(FileName(f)) == Some(f)
  {
    SplitFileName(f);
    StripFileStem(f);
    TemplateOfBaseName(f.template);
    var (stem, ext) := SplitExtension(FileName(f));
    var (base, v) := StripVariant(stem);
    assert base == BaseName(f.template) && v == f.variant && ext == Extension(f.template);
  }

  /** Together with Parse's own contract: a name is accepted if and only if it is one template file's spelling. */
  lemma ParseAcceptsExactlyFileNames(name: string)
    ensures Parse(name).Some? <==> exists f :: FileName(f) == name
  {
    if f :| FileName(f) == name {
      ParseFileName(f);
    }
  }
}
