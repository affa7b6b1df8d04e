/**
 * The showcase grid of v0_design/components/styles-grid.tsx: nine fixed
 * writing styles and a tab filter that keeps a style when one of its tags and
 * the tab name, both lower-cased, contain one another in either direction.
 */
module ShowcaseGrid {
  import opened Seqs
  import opened Text
  import StylesGrid

  datatype WritingStyle = WritingStyle(
    title: string,
    description: string,
    tags: seq<string>,
    icon: StylesGrid.Icon,
    uses: nat,
    gradientFrom: string,
    gradientTo: string)

  const WRITING_STYLES: seq<WritingStyle> := [
    WritingStyle("Professional Tone",
      "Crisp, authoritative language suited for business communication, reports, and executive summaries.",
      ["Business", "Formal", "Corporate"], StylesGrid.Briefcase, 342, "#22d3ee", "#0ea5e9"),
    WritingStyle("Creative Storyteller",
      "Vivid, imaginative prose that brings narratives to life with rich descriptions and engaging flow.",
      ["Creative", "Narrative", "Engaging"], StylesGrid.Feather, 218, "#f472b6", "#e879f9"),
    WritingStyle("Technical Writer",
      "Clear, precise documentation-style writing perfect for guides, API docs, and technical content.",
      ["Technical", "Documentation", "Clear"], StylesGrid.Zap, 187, "#34d399", "#22d3ee"),
    WritingStyle("Thought Leadership",
      "Insightful, forward-thinking content designed to establish authority and inspire industry discourse.",
      ["Opinion", "Insights", "Authority"], StylesGrid.Lightbulb, 156, "#fbbf24", "#f97316"),
    WritingStyle("Social Media Voice",
      "Punchy, scroll-stopping copy optimized for engagement across platforms like X, LinkedIn, and Instagram.",
      ["Social", "Short-form", "Viral"], StylesGrid.Megaphone, 291, "#818cf8", "#6366f1"),
    WritingStyle("Academic Researcher",
      "Scholarly, evidence-based writing with proper citations and structured argumentation for papers.",
      ["Academic", "Research", "Formal"], StylesGrid.GraduationCap, 94, "#2dd4bf", "#14b8a6"),
    WritingStyle("Conversational Blogger",
      "Friendly, approachable voice that connects with readers through relatable, easy-to-digest content.",
      ["Blog", "Casual", "Relatable"], StylesGrid.MessageCircle, 173, "#fb923c", "#f97316"),
    WritingStyle("SEO Copywriter",
      "Keyword-aware content that balances search engine optimization with natural, readable language.",
      ["SEO", "Marketing", "Web Copy"], StylesGrid.BookOpen, 265, "#4ade80", "#22c55e"),
    WritingStyle("Empathetic Brand Voice",
      "Warm, human-centered messaging that builds trust and emotional connection with your audience.",
      ["Brand", "Empathetic", "Trust"], StylesGrid.Heart, 128, "#f9a8d4", "#f472b6")]

  const FILTER_TABS := ["All", "Business", "Creative", "Technical", "Marketing"]
  const ALL := "All"

  /** A tag matches a tab when either, lower-cased, contains the other. */
  predicate Matches(tag: string, filter: string) {
    Contains(Lower(tag), Lower(filter)) || Contains(Lower(filter), Lower(tag))
  }

  /** The match relation does not care which side is the tag and which the tab. */
  lemma MatchesSymmetric(tag: string, filter: string)
    ensures Matches(tag, filter) <==> Matches(filter, tag)
  {
  }

  predicate AnyTagMatches(style: WritingStyle, filter: string) {
    exists i :: 0 <= i < |style.tags| && Matches(style.tags[i], filter)
  }

  /** `filteredStyles`: every style for `All`; otherwise, in order, the styles with a matching tag. */
  function FilterStyles(styles: seq<WritingStyle>, filter: string): (r: seq<WritingStyle>)
    ensures filter == ALL ==> r == styles
    ensures IsSubsequence(r, styles)
    ensures filter != ALL ==> forall s :: s in r <==> s in styles && AnyTagMatches(s, filter)
  {
    if filter == ALL then
      StylesGrid.SubsequenceOfSelf(styles);
      styles
    else Filter(styles, (s: WritingStyle) => AnyTagMatches(s, filter))
  }

  /** A style carrying a tag equal to the tab, up to case, is always shown under that tab. */
  lemma TaggedStyleShown(styles: seq<WritingStyle>, k: nat, i: nat, filter: string)
    requires k < |styles| && i < |styles[k].tags| && Lower(styles[k].tags[i]) == Lower(filter)
    ensures styles[k] in FilterStyles(styles, filter)
  {
    var lt := Lower(filter);
    assert lt[0..|lt|] == lt;
    ContainsAt(lt, lt, 0);
    assert Matches(styles[k].tags[i], filter);
  }
}
