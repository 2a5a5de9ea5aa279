/**
 * The expression-repair prompt (evaluator/construct_prompts.py): the
 * `fix_fast_expression` template with its two markers filled in turn.
 */
module FixPrompt {
  import opened Wrappers
  import opened Json
  import opened Text
  import PromptFile

  const TEMPLATE_KEY := "fix_fast_expression"
  const EXPRESSION_MARKER := "{{ fast_expression }}"
  const ERROR_MARKER := "{{ error_mes }}"

  /**
   * `build_fix_fast_expression_prompt`: every expression marker becomes the
   * expression, then every error marker of the result becomes the error text.
   */
  function BuildFixPrompt(doc: Value, expr: string, err: string): (r: Result<string>)
    ensures r.Ok? <==> PromptFile.TemplateEntry(doc, TEMPLATE_KEY).Ok?
    ensures r.Err? ==> r == PromptFile.TemplateEntry(doc, TEMPLATE_KEY)
  {
    match PromptFile.TemplateEntry(doc, TEMPLATE_KEY)
    case Err(e) => Err(e)
    case Ok(t) => Ok(ReplaceAll(ReplaceAll(t, EXPRESSION_MARKER, expr), ERROR_MARKER, err))
  }

  /** The prompt file as a one-entry mapping, to state properties of a given template. */
  function DocWith(template: string): Value
  {
    Object([(TEMPLATE_KEY, Str(template))])
  }

  /** A missing or empty template is refused with ValueError. */
  lemma MissingTemplateRefused(fields: seq<(string, Value)>, expr: string, err: string)
    requires Lookup(fields, TEMPLATE_KEY).None? || Lookup(fields, TEMPLATE_KEY) == Some(Str(""))
    ensures BuildFixPrompt(Object(fields), expr, err) == Err("ValueError")
  {
  }

  /** A template holding neither marker comes back unchanged. */
  lemma NoMarkersUnchanged(template: string, expr: string, err: string)
    requires template != []
    requires !Contains(template, EXPRESSION_MARKER) && !Contains(template, ERROR_MARKER)
    ensures BuildFixPrompt(DocWith(template), expr, err) == Ok(template)
  {
    assert Find(template, EXPRESSION_MARKER).None?;
    assert Find(template, ERROR_MARKER).None?;
  }

  /**
   * Every occurrence of the expression marker is filled: the template's
   * pieces between markers are kept, with the expression between each two.
   */
  lemma EveryExpressionMarkerFilled(template: string, expr: string, err: string)
    requires template != []
    ensures BuildFixPrompt(DocWith(template), expr, err)
         == Ok(ReplaceAll(Join(Split(template, EXPRESSION_MARKER), expr), ERROR_MARKER, err))
  {
    ReplaceAllIsSplitJoin(template, EXPRESSION_MARKER, expr);
  }

  /**
   * The error text is substituted after the expression, so an error marker
   * that the expression itself carries is filled as well.
   */
  lemma ErrorMarkerInsideExpressionFilled(err: string)
    ensures BuildFixPrompt(DocWith(EXPRESSION_MARKER), ERROR_MARKER, err) == Ok(err)
  {
    var t := EXPRESSION_MARKER;
    assert Lookup(DocWith(t).fields, TEMPLATE_KEY) == Some(Str(t));
    assert PromptFile.TemplateEntry(DocWith(t), TEMPLATE_KEY) == Ok(t);
    ReplaceAllWhole(t, ERROR_MARKER);
    ReplaceAllWhole(ERROR_MARKER, err);
  }

  /** The whole text being one occurrence of the pattern. */
  lemma ReplaceAllWhole(pat: string, rep: string)
    requires pat != []
    ensures ReplaceAll(pat, pat, rep) == rep
  {
    assert pat[|pat|..] == [];
    assert ReplaceAll([], pat, rep) == [];
  }
}
