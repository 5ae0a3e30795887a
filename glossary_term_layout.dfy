/** The widget table of the customisable glossary-term page: widget names to
    keys and heights, the component for a widget key, the default overview
    grid and the list of widgets a user can add. */
module GlossaryTermLayout {
  import opened Wrappers
  import opened JavaStrings

  /** The keys of the glossary-term detail page. Their string values are
      not part of this model; `keyValue` parameters stand for them. */
  datatype WidgetKey =
    | HEADER | DESCRIPTION | TAGS | DOMAIN | CUSTOM_PROPERTIES | TABS | SYNONYMS
    | RELATED_TERMS | REFERENCES | OWNER | REVIEWER | TERMS_TABLE | EMPTY_WIDGET_PLACEHOLDER

  /** The name of a key, as written in the enum and in the heights record. */
  function KeyName(k: WidgetKey): string
  {
    match k
    case HEADER => "HEADER"
    case DESCRIPTION => "DESCRIPTION"
    case TAGS => "TAGS"
    case DOMAIN => "DOMAIN"
    case CUSTOM_PROPERTIES => "CUSTOM_PROPERTIES"
    case TABS => "TABS"
    case SYNONYMS => "SYNONYMS"
    case RELATED_TERMS => "RELATED_TERMS"
    case REFERENCES => "REFERENCES"
    case OWNER => "OWNER"
    case REVIEWER => "REVIEWER"
    case TERMS_TABLE => "TERMS_TABLE"
    case EMPTY_WIDGET_PLACEHOLDER => "EMPTY_WIDGET_PLACEHOLDER"
  }

  /** The eleven names both switches list. */
  const NAMED_WIDGETS: seq<string> :=
    ["HEADER", "DESCRIPTION", "TAGS", "DOMAIN", "CUSTOM_PROPERTIES", "TABS", "SYNONYMS",
     "RELATED_TERMS", "REFERENCES", "OWNER", "REVIEWER"]

  /** The component that renders a widget. */
  datatype WidgetComponent = GlossaryHeaderWidget | CustomizeTabWidget | GenericWidget

  /** The widgets a user can add to the page. */
  datatype CommonWidget =
    | DescriptionWidget | TermsTableWidget | DomainWidget | ReferencesWidget | ReviewerWidget
    | CustomPropertiesWidget | TagsWidget | OwnerWidget | SynonymsWidget | RelatedTermsWidget

  /** A grid cell; `h` is None when the heights record has no entry. */
  datatype WidgetConfig = WidgetConfig(h: Option<int>, i: WidgetKey, w: int, x: int, y: int, isStatic: bool)

  datatype EntityTab = Overview | OtherTab(name: string)

  /** The heights the constructor sets. */
  const DEFAULT_HEIGHTS: map<string, int> := map[
    "HEADER" := 1, "DESCRIPTION" := 2, "TAGS" := 2, "DOMAIN" := 1, "CUSTOM_PROPERTIES" := 3,
    "TABS" := 10, "SYNONYMS" := 1, "RELATED_TERMS" := 1, "REFERENCES" := 2, "OWNER" := 1,
    "REVIEWER" := 1, "TERMS_TABLE" := 1, "EMPTY_WIDGET_PLACEHOLDER" := 3]

  function Lookup(heights: map<string, int>, name: string): Option<int>
  {
    if name in heights then Some(heights[name]) else None
  }

  /** The header and the tabs across the full width of 8 columns. */
  function DefaultLayout(heights: map<string, int>): seq<WidgetConfig>
  {
    [WidgetConfig(Lookup(heights, "HEADER"), HEADER, 8, 0, 0, true),
     WidgetConfig(Lookup(heights, "TABS"), TABS, 8, 0, 1, true)]
  }

  /** The overview grid, with heights read from the record. */
  function OverviewWidgets(heights: map<string, int>): seq<WidgetConfig>
  {
    [WidgetConfig(Lookup(heights, "DESCRIPTION"), DESCRIPTION, 6, 0, 0, false),
     WidgetConfig(Lookup(heights, "CUSTOM_PROPERTIES"), CUSTOM_PROPERTIES, 2, 6, 7, false),
     WidgetConfig(Lookup(heights, "DOMAIN"), DOMAIN, 2, 6, 0, false),
     WidgetConfig(Lookup(heights, "SYNONYMS"), SYNONYMS, 3, 0, 2, false),
     WidgetConfig(Lookup(heights, "RELATED_TERMS"), RELATED_TERMS, 3, 3, 2, false),
     WidgetConfig(Lookup(heights, "REFERENCES"), REFERENCES, 3, 0, 3, false),
     WidgetConfig(Lookup(heights, "TAGS"), TAGS, 3, 3, 3, false),
     WidgetConfig(Lookup(heights, "OWNER"), OWNER, 2, 6, 1, false),
     WidgetConfig(Lookup(heights, "REVIEWER"), REVIEWER, 2, 6, 4, false)]
  }

  /** Two placed widgets share a grid cell. */
  predicate Overlap(a: WidgetConfig, b: WidgetConfig)
    requires a.h.Some? && b.h.Some?
  {
    a.x < b.x + b.w && b.x < a.x + a.w && a.y < b.y + b.h.value && b.y < a.y + a.h.value
  }

  /** A widget fits inside the 8 columns the header and tabs span. */
  predicate FitsWidth(c: WidgetConfig)
  {
    0 <= c.x && 0 < c.w && c.x + c.w <= 8
  }

  /** The seven widgets offered on every glossary page. */
  function GlossaryWidgets(): seq<CommonWidget>
  {
    [DescriptionWidget, TermsTableWidget, DomainWidget, ReferencesWidget,
     ReviewerWidget, CustomPropertiesWidget, TagsWidget]
  }

  class CustomizeGlossaryTermPageClassBase {
    const defaultWidgetHeight: int := 2
    var defaultLayout: seq<WidgetConfig>
    var detailPageWidgetDefaultHeights: map<string, int>

    /** The heights table and a layout of header and tabs. */
    constructor()
      ensures detailPageWidgetDefaultHeights == DEFAULT_HEIGHTS
      ensures |defaultLayout| == 2 && defaultLayout[0].i == HEADER && defaultLayout[1].i == TABS
      ensures forall k :: 0 <= k < |defaultLayout| ==>
        defaultLayout[k].isStatic && defaultLayout[k].x == 0 && defaultLayout[k].w == 8
      ensures defaultLayout[0].h == Some(1) && defaultLayout[1].h == Some(10) && defaultLayout[1].y == 1
    {
      detailPageWidgetDefaultHeights := DEFAULT_HEIGHTS;
      defaultLayout := DefaultLayout(DEFAULT_HEIGHTS);
    }

    /** `updateDefaultLayoutLayout` replaces the layout and nothing else. */
    method UpdateDefaultLayoutLayout(layout: seq<WidgetConfig>)
      modifies this
      ensures defaultLayout == layout
      ensures detailPageWidgetDefaultHeights == old(detailPageWidgetDefaultHeights)
    {
      defaultLayout := layout;
    }

    /** `updateLandingPageWidgetDefaultHeights` replaces the heights and
        nothing else. */
    method UpdateLandingPageWidgetDefaultHeights(heights: map<string, int>)
      modifies this
      ensures detailPageWidgetDefaultHeights == heights
      ensures defaultLayout == old(defaultLayout)
    {
      detailPageWidgetDefaultHeights := heights;
    }

    /** `getKeyFromWidgetName`: a listed name gives the key of that name,
        every other name (`TERMS_TABLE` included) the placeholder key. */
    function GetKeyFromWidgetName(widgetName: string): (k: WidgetKey)
      ensures k != EMPTY_WIDGET_PLACEHOLDER <==> widgetName in NAMED_WIDGETS
      ensures k != EMPTY_WIDGET_PLACEHOLDER ==> KeyName(k) == widgetName
    {
      match widgetName
      case "HEADER" => HEADER
      case "DESCRIPTION" => DESCRIPTION
      case "TAGS" => TAGS
      case "DOMAIN" => DOMAIN
      case "CUSTOM_PROPERTIES" => CUSTOM_PROPERTIES
      case "TABS" => TABS
      case "SYNONYMS" => SYNONYMS
      case "RELATED_TERMS" => RELATED_TERMS
      case "REFERENCES" => REFERENCES
      case "OWNER" => OWNER
      case "REVIEWER" => REVIEWER
      case _ => EMPTY_WIDGET_PLACEHOLDER
    }

    /** `getWidgetsFromKey`: the header component for keys starting with the
        header key's value, then the tab component for the tabs key's value,
        the generic widget for every other key. */
    function GetWidgetsFromKey(widgetKey: string, keyValue: WidgetKey -> string): (c: WidgetComponent)
      ensures c == GlossaryHeaderWidget <==> StartsWith(widgetKey, keyValue(HEADER))
      ensures c == CustomizeTabWidget <==> !StartsWith(widgetKey, keyValue(HEADER)) && StartsWith(widgetKey, keyValue(TABS))
    {
      if StartsWith(widgetKey, keyValue(HEADER)) then GlossaryHeaderWidget
      else if StartsWith(widgetKey, keyValue(TABS)) then CustomizeTabWidget
      else GenericWidget
    }

    /** `getWidgetHeight`: the recorded height of a listed name (None when
        the record lacks it), `defaultWidgetHeight` for every other name. */
    function GetWidgetHeight(widgetName: string): (h: Option<int>)
      reads this
      ensures widgetName in NAMED_WIDGETS ==> h == Lookup(detailPageWidgetDefaultHeights, widgetName)
      ensures widgetName !in NAMED_WIDGETS ==> h == Some(defaultWidgetHeight)
    {
      var k := GetKeyFromWidgetName(widgetName);
      if k == EMPTY_WIDGET_PLACEHOLDER then Some(defaultWidgetHeight)
      else Lookup(detailPageWidgetDefaultHeights, KeyName(k))
    }

    /** `getDefaultWidgetForTab`: the overview grid, nothing on other tabs. */
    function GetDefaultWidgetForTab(tab: EntityTab): (ws: seq<WidgetConfig>)
      reads this
      ensures tab != Overview ==> ws == []
      ensures tab == Overview ==> |ws| == 9 && forall k :: 0 <= k < 9 ==> !ws[k].isStatic && FitsWidth(ws[k])
      ensures tab == Overview ==> forall k :: 0 <= k < 9 ==>
        ws[k].h == Lookup(detailPageWidgetDefaultHeights, KeyName(ws[k].i))
      ensures tab == Overview ==>
        [ws[0].i, ws[1].i, ws[2].i, ws[3].i, ws[4].i, ws[5].i, ws[6].i, ws[7].i, ws[8].i]
        == [DESCRIPTION, CUSTOM_PROPERTIES, DOMAIN, SYNONYMS, RELATED_TERMS, REFERENCES, TAGS, OWNER, REVIEWER]
    {
      if tab == Overview then OverviewWidgets(detailPageWidgetDefaultHeights) else []
    }

    /** `getCommonWidgetList`. */
    function GetCommonWidgetList(isGlossary: bool): (ws: seq<CommonWidget>)
      ensures isGlossary ==> |ws| == 7
      ensures !isGlossary ==>
        |ws| == 10 && ws[7..] == [OwnerWidget, SynonymsWidget, RelatedTermsWidget]
      ensures !isGlossary ==> forall k :: 0 <= k < 7 ==> ws[k] == GlossaryWidgets()[k]
      ensures forall k, l :: 0 <= k < l < |ws| ==> ws[k] != ws[l]
    {
      var common := GlossaryWidgets();
      if isGlossary then common else common + [OwnerWidget, SynonymsWidget, RelatedTermsWidget]
    }
  }

  /** A widget key's name leads back to that key, for every key but the two
      the switch does not list. */
  lemma KeyNameRoundTrip(page: CustomizeGlossaryTermPageClassBase, k: WidgetKey)
    requires k != TERMS_TABLE && k != EMPTY_WIDGET_PLACEHOLDER
    ensures page.GetKeyFromWidgetName(KeyName(k)) == k
  {
  }

  /** With the constructor's heights, every overview widget has a height and
      no two of them share a cell. */
  lemma OverviewGridHasNoOverlap(page: CustomizeGlossaryTermPageClassBase)
    requires page.detailPageWidgetDefaultHeights == DEFAULT_HEIGHTS
    ensures var ws := page.GetDefaultWidgetForTab(Overview);
      (forall k :: 0 <= k < |ws| ==> ws[k].h.Some? && ws[k].h.value > 0)
      && forall k, l :: 0 <= k < l < |ws| ==> !Overlap(ws[k], ws[l])
  {
    var ws := page.GetDefaultWidgetForTab(Overview);
    var hs := [2, 3, 1, 1, 1, 2, 2, 1, 1];
    forall k | 0 <= k < 9 ensures ws[k].h == Some(hs[k]) {
    }
  }
}
