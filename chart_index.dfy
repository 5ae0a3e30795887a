/** The search document for a chart: the owner's display name falls back to
    the owner's name, the serialised chart loses its excluded fields, and the
    document gets suggestions, FQN parts and the entity type. */
module ChartIndexes {
  import opened Wrappers

  const CHART := "chart"
  const EXCLUDE_FIELDS: seq<string> := ["changeDescription"]

  datatype SearchSuggest = SearchSuggest(input: string, weight: int)

  /** A value in the document map. */
  datatype DocValue = Json(text: string) | Text(s: string) | Suggestions(items: seq<SearchSuggest>) | Parts(parts: set<string>)

  type Doc = map<string, DocValue>

  class EntityReference {
    var name: string
    var displayName: Option<string>

    constructor(name: string, displayName: Option<string>)
      ensures this.name == name && this.displayName == displayName
    {
      this.name := name;
      this.displayName := displayName;
    }
  }

  /** The chart as the serialiser sees it. */
  datatype ChartValue = ChartValue(name: string, fullyQualifiedName: string, owner: Option<(string, Option<string>)>)

  class Chart {
    var name: string
    var fullyQualifiedName: string
    var owner: EntityReference?

    constructor(name: string, fullyQualifiedName: string, owner: EntityReference?)
      ensures this.name == name && this.fullyQualifiedName == fullyQualifiedName && this.owner == owner
    {
      this.name := name;
      this.fullyQualifiedName := fullyQualifiedName;
      this.owner := owner;
    }

    function Value(): ChartValue
      reads this, owner
    {
      ChartValue(name, fullyQualifiedName, if owner == null then None else Some((owner.name, owner.displayName)))
    }
  }

  /** `nullOrEmpty(displayName) ? name : displayName`. */
  function OwnerDisplayName(name: string, displayName: Option<string>): (d: Option<string>)
    ensures displayName.None? || displayName.value == "" ==> d == Some(name)
    ensures displayName.Some? && displayName.value != "" ==> d == displayName
  {
    if displayName.None? || displayName.value == "" then Some(name) else displayName
  }

  /** The two suggestions: the name weighted 10, then the FQN weighted 5. */
  function Suggest(name: string, fqn: string): (s: seq<SearchSuggest>)
    ensures |s| == 2 && s[0] == SearchSuggest(name, 10) && s[1] == SearchSuggest(fqn, 5)
  {
    [SearchSuggest(name, 10), SearchSuggest(fqn, 5)]
  }

  class ChartIndex {
    const chart: Chart

    constructor(chart: Chart)
      ensures this.chart == chart
    {
      this.chart := chart;
    }

    /** `buildESDoc`. Serialising the chart (`getMap`), dropping the excluded
        fields (`removeNonIndexable`) and `getFQNParts` are parameters. */
    method BuildESDoc(getMap: ChartValue -> Doc, removeNonIndexable: (Doc, seq<string>) -> Doc,
                      getFQNParts: (string, seq<string>) -> set<string>) returns (doc: Doc)
      modifies chart.owner
      ensures chart.owner == old(chart.owner)
      ensures chart.owner != null ==>
        chart.owner.name == old(chart.owner.name)
        && chart.owner.displayName == OwnerDisplayName(old(chart.owner.name), old(chart.owner.displayName))
      ensures "entityType" in doc && "suggest" in doc && "fqnParts" in doc
      ensures doc["entityType"] == Text(CHART)
      ensures doc["suggest"] == Suggestions(Suggest(chart.name, chart.fullyQualifiedName))
      ensures doc["fqnParts"] == Parts(getFQNParts(chart.fullyQualifiedName, [chart.name, chart.fullyQualifiedName]))
      ensures forall k :: k !in {"entityType", "suggest", "fqnParts"} ==>
        (k in doc <==> k in removeNonIndexable(getMap(chart.Value()), EXCLUDE_FIELDS))
        && (k in doc ==> doc[k] == removeNonIndexable(getMap(chart.Value()), EXCLUDE_FIELDS)[k])
    {
      var owner := chart.owner;
      if owner != null {
        owner.displayName := OwnerDisplayName(owner.name, owner.displayName);
      }
      doc := getMap(chart.Value());
      doc := removeNonIndexable(doc, EXCLUDE_FIELDS);
      var suggest := [];
      suggest := suggest + [SearchSuggest(chart.name, 10)];
      suggest := suggest + [SearchSuggest(chart.fullyQualifiedName, 5)];
      doc := doc["fqnParts" := Parts(getFQNParts(chart.fullyQualifiedName, [suggest[0].input, suggest[1].input]))];
      doc := doc["suggest" := Suggestions(suggest)];
      doc := doc["entityType" := Text(CHART)];
    }
  }

  /** The fallback only fills in an absent or empty display name. */
  lemma DisplayNameFallbackIsIdempotent(name: string, displayName: Option<string>)
    ensures OwnerDisplayName(name, OwnerDisplayName(name, displayName)) == OwnerDisplayName(name, displayName)
    ensures OwnerDisplayName(name, displayName).Some?
  {
  }
}
