/**
 * The style library grid of components/styles-grid.tsx: each database row is
 * decorated into a card (title, description, tags, usage count, icon and
 * gradient by position), and the cards are filtered by a tag tab.
 */
module StylesGrid {
  import opened Options
  import opened Seqs
  import opened Text
  import opened Json

  /** A row of the `styles` table: `name` and `description` may be null, `config_json` is any JSON value. */
  datatype DbStyle = DbStyle(id: Json, name: Option<string>, description: Option<string>, configJson: Json)

  datatype Icon = Briefcase | Feather | Zap | Lightbulb | Megaphone | GraduationCap | MessageCircle | BookOpen | Heart

  datatype Card = Card(
    styleId: string,
    title: string,
    description: string,
    tags: seq<string>,
    icon: Icon,
    uses: int,
    gradientFrom: string,
    gradientTo: string)

  const FILTER_TABS := ["All", "Business", "Creative", "Technical", "Marketing"]
  const ALL := "All"
  const ICON_CYCLE := [Briefcase, Feather, Zap, Lightbulb, Megaphone, GraduationCap, MessageCircle, BookOpen, Heart]
  const GRADIENTS := [
    ("#22d3ee", "#0ea5e9"),
    ("#f472b6", "#e879f9"),
    ("#34d399", "#22d3ee"),
    ("#fbbf24", "#f97316"),
    ("#818cf8", "#6366f1"),
    ("#2dd4bf", "#14b8a6"),
    ("#fb923c", "#f97316"),
    ("#4ade80", "#22c55e"),
    ("#f9a8d4", "#f472b6")]
  const DEFAULT_TAGS := ["Custom", "Style"]
  const DEFAULT_DESCRIPTION := "Custom writing style"
  const TITLE_PREFIX := "Bilibili Style - "

  // ---------------------------------------------------------------------------
  // Tags
  // ---------------------------------------------------------------------------

  function TrimAll(parts: seq<string>): (r: seq<string>)
    ensures |r| == |parts| && forall i :: 0 <= i < |parts| ==> r[i] == Trim(parts[i])
  {
    seq(|parts|, i requires 0 <= i < |parts| => Trim(parts[i]))
  }

  /** `.filter(Boolean)` on strings: the non-empty ones, in order. */
  function NonEmpty(parts: seq<string>): (r: seq<string>)
    ensures forall t :: t in r <==> t in parts && t != ""
    ensures IsSubsequence(r, parts)
  {
    Filter(parts, (t: string) => t != "")
  }

  /** `rawKeywords.map(k => typeof k === "string" ? k : String(k))`. */
  function EntryTexts(items: seq<Json>): (r: seq<string>)
    ensures |r| == |items| && forall i :: 0 <= i < |items| ==> r[i] == ToText(items[i])
  {
    seq(|items|, i requires 0 <= i < |items| => ToText(items[i]))
  }

  /** Tags from `config.keywords`: an array's entries as text, or a string split on `,` and `;` and trimmed. */
  function KeywordTags(keywords: Option<Json>): (r: seq<string>)
    ensures forall t :: t in r ==> t != ""
    ensures keywords.Some? && keywords.value.JArr? ==> r == NonEmpty(EntryTexts(keywords.value.items))
    ensures keywords.Some? && keywords.value.JStr? ==> r == NonEmpty(TrimAll(Split(keywords.value.s, {',', ';'})))
    ensures keywords.None? || !(keywords.value.JArr? || keywords.value.JStr?) ==> r == []
  {
    match keywords
    case Some(JArr(items)) => NonEmpty(EntryTexts(items))
    case Some(JStr(s)) => NonEmpty(TrimAll(Split(s, {',', ';'})))
    case _ => []
  }

  /** An array of non-empty strings gives exactly those strings as tags, in order. */
  lemma ArrayKeywordsKept(items: seq<Json>)
    requires forall i :: 0 <= i < |items| ==> items[i].JStr? && items[i].s != ""
    ensures KeywordTags(Some(JArr(items))) == EntryTexts(items)
  {
    FilterAll(EntryTexts(items), (t: string) => t != "");
  }

  /** A keyword string without `,` or `;` that is not blank is one tag: the string trimmed. */
  lemma SingleKeyword(s: string)
    requires forall i :: 0 <= i < |s| ==> s[i] != ',' && s[i] != ';'
    requires !Blank(s)
    ensures KeywordTags(Some(JStr(s))) == [Trim(s)]
  {
    SplitNoSeparator(s, {',', ';'});
    assert TrimAll(Split(s, {',', ';'})) == [Trim(s)];
    NonEmptySingle(Trim(s));
  }

  lemma NonEmptySingle(t: string)
    requires t != ""
    ensures NonEmpty([t]) == [t]
  {
    FilterAll([t], (t: string) => t != "");
  }

  /** `s.slice(0, n)`: the first `n` elements, or all of them when there are fewer. */
  function FirstAtMost<T>(s: seq<T>, n: nat): (r: seq<T>)
    ensures |r| == (if |s| < n then |s| else n) && r == s[..|r|]
    ensures forall t :: t in r ==> t in s
  {
    var k := if |s| < n then |s| else n;
    PrefixMembers(s, k);
    s[..k]
  }

  /** Tags from the tone: the first three of its pieces split on `,` and `.`, trimmed and non-empty. */
  function ToneTags(tone: string): (r: seq<string>)
    ensures |r| <= 3
    ensures var all := NonEmpty(TrimAll(Split(tone, {',', '.'})));
      |r| == (if |all| < 3 then |all| else 3) && r == all[..|r|]
  {
    FirstAtMost(NonEmpty(TrimAll(Split(tone, {',', '.'}))), 3)
  }

  lemma PrefixMembers<T>(s: seq<T>, n: nat)
    requires n <= |s|
    ensures forall t :: t in s[..n] ==> t in s
  {
    forall t | t in s[..n] ensures t in s {
      var k :| 0 <= k < n && s[..n][k] == t;
      assert s[k] == t;
    }
  }

  /** Every tone tag is a non-empty, trimmed piece of the tone. */
  lemma ToneTagsArePieces(tone: string)
    ensures forall t :: t in ToneTags(tone) ==> t != "" && t in TrimAll(Split(tone, {',', '.'}))
  {
    var pieces := TrimAll(Split(tone, {',', '.'}));
    PrefixOfNonEmpty(pieces, ToneTags(tone));
  }

  lemma PrefixOfNonEmpty(pieces: seq<string>, r: seq<string>)
    requires |r| <= |NonEmpty(pieces)| && r == NonEmpty(pieces)[..|r|]
    ensures forall t :: t in r ==> t != "" && t in pieces
  {
    PrefixMembers(NonEmpty(pieces), |r|);
  }

  /**
   * The card's tags: the keyword tags if there are any; otherwise the tone
   * tags if the tone is non-empty and yields any; otherwise `Custom, Style`.
   */
  function Tags(config: Json, tone: string): (r: seq<string>)
    ensures |r| > 0 && forall t :: t in r ==> t != ""
    ensures KeywordTags(Get(config, "keywords")) != [] ==> r == KeywordTags(Get(config, "keywords"))
    ensures KeywordTags(Get(config, "keywords")) == [] && tone != "" && ToneTags(tone) != [] ==> r == ToneTags(tone)
    ensures KeywordTags(Get(config, "keywords")) == [] && (tone == "" || ToneTags(tone) == []) ==> r == DEFAULT_TAGS
  {
    var keywordTags := KeywordTags(Get(config, "keywords"));
    if keywordTags != [] then keywordTags
    else
      var toneTags := if tone != "" then ToneTags(tone) else [];
      if toneTags != [] then toneTags else DEFAULT_TAGS
  }

  // ---------------------------------------------------------------------------
  // One card
  // ---------------------------------------------------------------------------

  /** `config_json ?? {}`. */
  function ConfigOf(style: DbStyle): Json {
    if style.configJson == JNull then JObj([]) else style.configJson
  }

  /** The property read, if it is a string. */
  function StringMember(config: Json, key: string): Option<string> {
    match Get(config, key)
    case Some(JStr(s)) => Some(s)
    case _ => None
  }

  /** `(style.name ?? "") || config.style_name-if-a-string || ""`. */
  function RawName(style: DbStyle): (r: string)
    ensures style.name.Some? && style.name.value != "" ==> r == style.name.value
    ensures style.name.None? || style.name.value == "" ==> r == StringMember(ConfigOf(style), "style_name").GetOr("")
  {
    if style.name.Some? && style.name.value != "" then style.name.value
    else StringMember(ConfigOf(style), "style_name").GetOr("")
  }

  /** `style.description ?? config.tone-if-a-string ?? ""`: a non-null description wins even when empty. */
  function Tone(style: DbStyle): (r: string)
    ensures style.description.Some? ==> r == style.description.value
    ensures style.description.None? ==> r == StringMember(ConfigOf(style), "tone").GetOr("")
  {
    match style.description
    case Some(d) => d
    case None => StringMember(ConfigOf(style), "tone").GetOr("")
  }

  /** The trimmed raw name, or `Bilibili Style - ` and the first eight characters of the id. */
  function Title(style: DbStyle): (r: string)
    ensures !Blank(r)
    ensures Trim(RawName(style)) != "" ==> r == Trim(RawName(style))
    ensures Trim(RawName(style)) == "" ==> r == TITLE_PREFIX + Take(ToText(style.id), 8)
  {
    var name := Trim(RawName(style));
    if name != "" then
      assert !AllSpace(name) by {
        assert !IsSpace(name[0]);
      }
      name
    else
      var r := TITLE_PREFIX + Take(ToText(style.id), 8);
      assert !AllSpace(r) by {
        assert !IsSpace(r[0]);
      }
      r
  }

  /** `config.uses` when it is a number, else 0. */
  function Uses(config: Json): (r: int)
    ensures Get(config, "uses").Some? && Get(config, "uses").value.JNum? ==> r == Get(config, "uses").value.n
    ensures !(Get(config, "uses").Some? && Get(config, "uses").value.JNum?) ==> r == 0
  {
    match Get(config, "uses")
    case Some(JNum(n)) => n
    case _ => 0
  }

  /** The card for the row at position `index`. */
  function Decorate(style: DbStyle, index: nat): (card: Card)
    ensures card.styleId == ToText(style.id)
    ensures card.title == Title(style) && !Blank(card.title)
    ensures card.description == (if Tone(style) != "" then Tone(style) else DEFAULT_DESCRIPTION)
    ensures card.tags == Tags(ConfigOf(style), Tone(style)) && |card.tags| > 0
    ensures card.uses == Uses(ConfigOf(style))
    ensures card.icon == ICON_CYCLE[index % 9]
    ensures (card.gradientFrom, card.gradientTo) == GRADIENTS[index % 9]
  {
    var config := ConfigOf(style);
    var tone := Tone(style);
    var gradient := GRADIENTS[index % |GRADIENTS|];
    Card(
      ToText(style.id),
      Title(style),
      if tone != "" then tone else DEFAULT_DESCRIPTION,
      Tags(config, tone),
      ICON_CYCLE[index % |ICON_CYCLE|],
      Uses(config),
      gradient.0,
      gradient.1)
  }

  /** `styles.map((style, index) => ...)`. */
  function DecorateAll(styles: seq<DbStyle>): (cards: seq<Card>)
    ensures |cards| == |styles|
    ensures forall i :: 0 <= i < |styles| ==> cards[i] == Decorate(styles[i], i)
  {
    seq(|styles|, i requires 0 <= i < |styles| => Decorate(styles[i], i))
  }

  /** Icons and gradients repeat every nine cards. */
  lemma DecorationCycles(styles: seq<DbStyle>, i: nat)
    requires i + 9 < |styles|
    ensures DecorateAll(styles)[i].icon == DecorateAll(styles)[i + 9].icon
    ensures DecorateAll(styles)[i].gradientFrom == DecorateAll(styles)[i + 9].gradientFrom
    ensures DecorateAll(styles)[i].gradientTo == DecorateAll(styles)[i + 9].gradientTo
  {
    assert (i + 9) % 9 == i % 9;
  }

  // ---------------------------------------------------------------------------
  // The filter and the count
  // ---------------------------------------------------------------------------

  /** `tag.toLowerCase().includes(filter.toLowerCase())`. */
  predicate TagMatches(tag: string, filter: string) {
    Contains(Lower(tag), Lower(filter))
  }

  predicate AnyTagMatches(tags: seq<string>, filter: string) {
    exists i :: 0 <= i < |tags| && TagMatches(tags[i], filter)
  }

  /** The tab `All` shows every card; any other keeps, in order, the cards with a matching tag. */
  function FilterCards(cards: seq<Card>, filter: string): (r: seq<Card>)
    ensures filter == ALL ==> r == cards
    ensures IsSubsequence(r, cards)
    ensures filter != ALL ==> forall c :: c in r <==> c in cards && AnyTagMatches(c.tags, filter)
  {
    if filter == ALL then
      SubsequenceOfSelf(cards);
      cards
    else Filter(cards, (c: Card) => AnyTagMatches(c.tags, filter))
  }

  lemma {:induction false} SubsequenceOfSelf<T>(s: seq<T>)
    ensures IsSubsequence(s, s)
    decreases |s|
  {
    if s != [] {
      SubsequenceOfSelf(s[1..]);
    }
  }

  /** Every card carries a tag containing its own first tag, so filtering by that tag keeps it. */
  lemma FilterByOwnTagKeeps(cards: seq<Card>, i: nat)
    requires i < |cards| && |cards[i].tags| > 0 && cards[i].tags[0] != ALL
    ensures cards[i] in FilterCards(cards, cards[i].tags[0])
  {
    var t := cards[i].tags[0];
    var lt := Lower(t);
    assert lt[0..|lt|] == lt;
    ContainsAt(lt, lt, 0);
  }

  /** `N style` followed by `s` unless N is 1, then ` in your library`. */
  function CountLabel(n: nat): (r: string)
    ensures n == 1 ==> r == "1 style in your library"
    ensures n != 1 ==> r == NatToString(n) + " styles in your library"
  {
    NatToString(n) + " style" + (if n != 1 then "s" else "") + " in your library"
  }
}
