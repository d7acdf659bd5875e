/** From stored records to validated answers: nothing cited is made up. */
module NoInvention {
  import opened Json
  import opened AIContext
  import opened AIOutput
  import opened ContextSource
  import opened ContextBuild
  import opened ContextGuarantees
  import opened Schema
  import opened TestSuggestions

  /** Every reference of every validated answer names an item of the context it was
      validated against, under the context's own label, and that item descends from
      a stored record. */
  lemma AnswersCiteRecords(measure: Context -> nat, src: Source, options: Options, rules: Rules, raw: Json, ref: Ref)
    requires BuildWith(rules.host, measure, src, options).Ok?
    requires var c := BuildWith(rules.host, measure, src, options).value;
             ValidateOutput(rules.host, options.feature, raw, c, Validator(rules, c.evidenceIndex)).Ok?
    requires var c := BuildWith(rules.host, measure, src, options).value;
             Cites(ValidateOutput(rules.host, options.feature, raw, c, Validator(rules, c.evidenceIndex)).value, ref)
    ensures var c := BuildWith(rules.host, measure, src, options).value;
            ref in c.evidenceIndex && Names(c, ref)
    ensures SourceRef(rules.host, src, ref)
  {
    var c := BuildWith(rules.host, measure, src, options).value;
    ValidatorCitesIndex(rules, c.evidenceIndex);
    OutputCitesContext(rules.host, options.feature, raw, c, Validator(rules, c.evidenceIndex), ref);
    IndexIsComplete(rules.host, measure, src, options, ref);
    NothingInvented(rules.host, measure, src, options, ref);
  }
}
