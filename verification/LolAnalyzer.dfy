/**
 * The match-analysis command's answer parser: the AI's `## Title` sections become Discord
 * embed fields through the shared section parser in its Markdown style.
 */
module LolAnalyzer {
  import opened SectionFields

  /** `parseAnalysisToFields`: the section parser with `## Title` headers. */
  method ParseAnalysisToFields(text: string) returns (fields: seq<Field>)
    ensures fields == Fields(SectionsOf(Markdown, text))
    ensures forall i :: 0 <= i < |fields| ==> 0 < |fields[i].value| <= FieldLimit
  {
    fields := ParseToFields(Markdown, text);
  }
}
