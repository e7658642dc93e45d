/** The routing decisions of the education article template: which language it renders
    in, where its two call-to-action buttons lead (chosen from the buttons' own labels),
    and where its footer links lead. */
module EducationTemplate {
  import opened Common

  datatype Language = Zh | En

  /** `isZh`: the given language decides; without one, a hero title that does not
      mention "Forex" is taken for a Chinese page. */
  function IsZh(language: Option<Language>, heroTitle: string): (zh: bool)
    ensures language.Some? ==> (zh <==> language.value == Zh)
    ensures language.None? ==> (zh <==> !Contains(heroTitle, "Forex"))
  {
    match language
    case Some(l) => l == Zh
    case None => !Contains(heroTitle, "Forex")
  }

  /** The pages a call-to-action button can lead to. */
  datatype Destination = PartnerBrokers | PsychologyTest | PositionCalculator | JoinUs

  function Href(d: Destination): string {
    match d
    case PartnerBrokers => "/partners/brokers"
    case PsychologyTest => "/splan/psychology-test"
    case PositionCalculator => "/tools/position-calculator"
    case JoinUs => "/splan/join-us"
  }

  /** `text.includes(k)` for some `k` of `keys`. */
  predicate MentionsAny(text: string, keys: seq<string>) {
    exists k :: 0 <= k < |keys| && Contains(text, keys[k])
  }

  const BrokerLabels: seq<string> := ["合作经纪商", "Partner Brokers"]
  const PsychologyLabels: seq<string> := ["心理测评", "Psychology Test", "Psychology Assessment"]
  const ToolLabels: seq<string> := ["使用工具", "Use Tools"]
  /** The analysis tools that only the secondary button recognises. */
  const AnalysisLabels: seq<string> := ["技术分析工具", "Technical Analysis Tools", "价格行为工具", "Price Action Tools"]

  /** The primary button: broker labels first, then psychology, then tools; any other
      caption leads to the join page. */
  function PrimaryCta(caption: string): (d: Destination)
    ensures d == PartnerBrokers <==> MentionsAny(caption, BrokerLabels)
    ensures d == PsychologyTest <==> !MentionsAny(caption, BrokerLabels) && MentionsAny(caption, PsychologyLabels)
    ensures d == PositionCalculator <==>
      !MentionsAny(caption, BrokerLabels) && !MentionsAny(caption, PsychologyLabels) && MentionsAny(caption, ToolLabels)
  {
    if MentionsAny(caption, BrokerLabels) then PartnerBrokers
    else if MentionsAny(caption, PsychologyLabels) then PsychologyTest
    else if MentionsAny(caption, ToolLabels) then PositionCalculator
    else JoinUs
  }

  /** The secondary button: psychology labels first, then the analysis and tool labels;
      any other caption leads to the join page. It has no broker route. */
  function SecondaryCta(caption: string): (d: Destination)
    ensures d != PartnerBrokers
    ensures d == PsychologyTest <==> MentionsAny(caption, PsychologyLabels)
    ensures d == PositionCalculator <==>
      !MentionsAny(caption, PsychologyLabels) && MentionsAny(caption, AnalysisLabels + ToolLabels)
  {
    if MentionsAny(caption, PsychologyLabels) then PsychologyTest
    else if MentionsAny(caption, AnalysisLabels + ToolLabels) then PositionCalculator
    else JoinUs
  }

  /** A caption mentions a key of a concatenation exactly when it mentions a key of one
      of the two parts. */
  lemma MentionsAnyAppend(caption: string, a: seq<string>, b: seq<string>)
    ensures MentionsAny(caption, a + b) <==> MentionsAny(caption, a) || MentionsAny(caption, b)
  {
    if MentionsAny(caption, a + b) {
      var k :| 0 <= k < |a + b| && Contains(caption, (a + b)[k]);
      if k >= |a| {
        assert Contains(caption, b[k - |a|]);
      }
    }
    if MentionsAny(caption, a) {
      var k :| 0 <= k < |a| && Contains(caption, a[k]);
      assert (a + b)[k] == a[k];
    }
    if MentionsAny(caption, b) {
      var k :| 0 <= k < |b| && Contains(caption, b[k]);
      assert (a + b)[|a| + k] == b[k];
    }
  }

  /** The two buttons agree on every caption that mentions neither a broker nor an
      analysis tool: those are the only labels one button knows and the other does not. */
  lemma ButtonsAgree(caption: string)
    requires !MentionsAny(caption, BrokerLabels) && !MentionsAny(caption, AnalysisLabels)
    ensures PrimaryCta(caption) == SecondaryCta(caption)
  {
    MentionsAnyAppend(caption, AnalysisLabels, ToolLabels);
  }

  const EducationIndex := "/education"

  /** The footer links: `href || "/education"`, so a missing or empty link leads back
      to the education index. */
  function FooterHref(href: Option<string>): (r: string)
    ensures r != ""
    ensures href.Some? && href.value != "" ==> r == href.value
    ensures href.None? || href.value == "" ==> r == EducationIndex
  {
    if href.Some? && href.value != "" then href.value else EducationIndex
  }

  /** Following the fallback is idempotent: a resolved link resolves to itself. */
  lemma FooterHrefIdempotent(href: Option<string>)
    ensures FooterHref(Some(FooterHref(href))) == FooterHref(href)
  {
  }
}
