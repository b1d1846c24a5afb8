/** The fixed weighting tables of the calculator and the paper-type options
    shown in its drop-down.

    Every multiplier is kept exactly as a whole number of tenths, so 10 stands
    for 1.0, 12 for 1.2 and 8 for 0.8. The keys are the strings the form's
    selects produce (Chinese labels for shape and cleanliness, ASCII keys for
    the paper type). */
module Weights {
  import opened Wrappers

  /** The multiplier 1.0, used for every key a table does not know. */
  const Neutral: nat := 10

  /** Shape of an event: bar, blob, liquid, pellets. */
  const ShapeFactors: map<string, nat> :=
    map["條狀" := 10, "一整陀" := 12, "水狀" := 14, "顆粒狀" := 8]

  /** Cleanliness preference: normal, somewhat fastidious, very fastidious. */
  const CleanFactors: map<string, nat> :=
    map["普通" := 10, "有點潔癖" := 11, "極度潔癖" := 12]

  /** Paper type: a roll is counted in grid squares, the two sheet kinds in sheets. */
  const PaperFactors: map<string, nat> :=
    map["roll" := 12, "sheet" := 5, "triple-sheet" := 3]

  /** A paper-type key with the label the page shows for it. */
  datatype PaperOption = PaperOption(value: string, caption: string)

  const PaperOptions: seq<PaperOption> := [
    PaperOption("roll", "滾筒式"),
    PaperOption("sheet", "一般抽取式"),
    PaperOption("triple-sheet", "三層式抽取式")
  ]

  ghost predicate AllPositive(table: map<string, nat>) {
    forall k | k in table :: table[k] > 0
  }

  /** Every factor of the three tables is strictly positive. */
  lemma TablesPositive()
    ensures AllPositive(ShapeFactors)
    ensures AllPositive(CleanFactors)
    ensures AllPositive(PaperFactors)
  {
  }

  /** A table lookup with the neutral fallback for a missing key: the value
      the table lists for a known key, 1.0 for any other key, never an error,
      and positive whenever every entry of the table is. */
  function Lookup(table: map<string, nat>, key: string): (f: nat)
    ensures key in table ==> f == table[key]
    ensures key !in table ==> f == Neutral
    ensures AllPositive(table) ==> f > 0
  {
    if key in table then table[key] else Neutral
  }

  /** The shape multiplier: never zero, between 0.8 and 1.4, and exactly 1.0
      for a shape the table does not list. */
  function ShapeFactor(shape: string): (f: nat)
    ensures 8 <= f <= 14
    ensures shape !in ShapeFactors ==> f == Neutral
  {
    Lookup(ShapeFactors, shape)
  }

  /** The cleanliness multiplier: between 1.0 and 1.2, so a cleanliness
      preference never lowers an estimate; exactly 1.0 for an unknown level. */
  function CleanFactor(cleanLevel: string): (f: nat)
    ensures Neutral <= f <= 12
    ensures cleanLevel !in CleanFactors ==> f == Neutral
  {
    Lookup(CleanFactors, cleanLevel)
  }

  /** The paper multiplier: between 0.3 and 1.2, exactly 1.0 for an unknown
      paper type. */
  function PaperFactor(paperType: string): (f: nat)
    ensures 3 <= f <= 12
    ensures paperType !in PaperFactors ==> f == Neutral
  {
    Lookup(PaperFactors, paperType)
  }

  /** The label of the first option whose value is `key`, or None when no
      option has that value. */
  function FindLabel(options: seq<PaperOption>, key: string): (r: Option<string>)
    ensures r.None? <==> forall i | 0 <= i < |options| :: options[i].value != key
    ensures r.Some? ==>
      exists i | 0 <= i < |options| ::
        options[i].value == key && options[i].caption == r.value &&
        forall j | 0 <= j < i :: options[j].value != key
  {
    if options == [] then None
    else if options[0].value == key then Some(options[0].caption)
    else FindLabel(options[1..], key)
  }

  /** The label of the chosen paper type. A label is found exactly for the
      paper types that have a factor, so the option list and the factor table
      agree on their keys, and a found label is one of the option list's. */
  function PaperLabel(paperType: string): (r: Option<string>)
    ensures r.Some? <==> paperType in PaperFactors
    ensures r.Some? ==> exists i | 0 <= i < |PaperOptions| ::
      PaperOptions[i].value == paperType && PaperOptions[i].caption == r.value
  {
    FindLabel(PaperOptions, paperType)
  }

  /** The labels the page shows for the three known paper types. */
  lemma KnownPaperLabels()
    ensures PaperLabel("roll") == Some("滾筒式")
    ensures PaperLabel("sheet") == Some("一般抽取式")
    ensures PaperLabel("triple-sheet") == Some("三層式抽取式")
  {
  }

  /** The unit noun of the result: grid squares for a roll, sheets otherwise. */
  function UnitNoun(paperType: string): (u: string)
    ensures u == "格" <==> paperType == "roll"
    ensures u == "格" || u == "張"
  {
    if paperType == "roll" then "格" else "張"
  }
}
