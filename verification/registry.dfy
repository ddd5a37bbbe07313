/**
 The field registry of the career-change prediction form: the 22 fields of
 the form record, the input widget each one is rendered with, and the value
 each one holds in `initialState`.
 */
module Registry {
  import opened Values

  /** The form record: field name to value, as the `formData` state object holds it. */
  type Record = map<string, Value>

  /** The input components of the form; each reports a fixed `type` with its change events. */
  datatype Widget = TextInput | Select | NumberInput | Slider | SliderBin

  /** One field: its key in the record, the widget that edits it, and its initial value. */
  datatype FieldSpec = FieldSpec(name: string, widget: Widget, default: Value)

  /** The 22 fields, in the order `initialState` lists them. */
  const Fields: seq<FieldSpec> := [
    FieldSpec("fieldOfStudy", TextInput, Str("")),
    FieldSpec("currentOccupation", TextInput, Str("")),
    FieldSpec("gender", Select, Str("")),
    FieldSpec("educationLevel", Select, Str("")),
    FieldSpec("industryGrowthRate", Select, Str("")),
    FieldSpec("familyInfluence", Select, Str("")),
    FieldSpec("age", NumberInput, Num(25)),
    FieldSpec("yearsOfExperience", NumberInput, Num(1)),
    FieldSpec("jobSatisfaction", Slider, Num(5)),
    FieldSpec("workLifeBalance", Slider, Num(5)),
    FieldSpec("jobOpportunities", NumberInput, Num(10)),
    FieldSpec("salary", NumberInput, Num(50000)),
    FieldSpec("jobSecurity", Slider, Num(5)),
    FieldSpec("careerChangeInterest", SliderBin, Num(0)),
    FieldSpec("skillsGap", Slider, Num(5)),
    FieldSpec("mentorshipAvailable", SliderBin, Num(0)),
    FieldSpec("certifications", SliderBin, Num(0)),
    FieldSpec("freelancingExperience", SliderBin, Num(0)),
    FieldSpec("geographicMobility", SliderBin, Num(0)),
    FieldSpec("professionalNetworks", Slider, Num(5)),
    FieldSpec("careerChangeEvents", NumberInput, Num(0)),
    FieldSpec("technologyAdoption", Slider, Num(5))
  ]

  /** The fields `handleChange` capitalizes. */
  const CapitalizedNames: seq<string> := ["fieldOfStudy", "currentOccupation"]

  /**
   The `type` property of the element each widget renders. A single `<select>`
   carries no `type` attribute; its DOM `type` is `select-one`.
   */
  function InputType(w: Widget): (t: string)
    ensures t == "number" <==> w == NumberInput
    ensures t == "range" <==> w == Slider || w == SliderBin
    ensures t == "text" <==> w == TextInput
    ensures w == Select ==> t == "select-one"
  {
    match w
    case TextInput => "text"
    case Select => "select-one"
    case NumberInput => "number"
    case Slider => "range"
    case SliderBin => "range"
  }

  /** No two fields of `fs` share a key. */
  predicate DistinctNames(fs: seq<FieldSpec>)
  {
    forall i, j :: 0 <= i < j < |fs| ==> fs[i].name != fs[j].name
  }

  /** The keys of a list of fields. */
  function KeySet(fs: seq<FieldSpec>): set<string>
  {
    set i | 0 <= i < |fs| :: fs[i].name
  }

  /** The key set of a well-formed record. */
  const FieldSet: set<string> := KeySet(Fields)

  /** A list of fields without repeated keys has as many keys as entries. */
  lemma {:induction false} DistinctCardinality(fs: seq<FieldSpec>)
    requires DistinctNames(fs)
    ensures |KeySet(fs)| == |fs|
  {
    if |fs| > 0 {
      var front := fs[..|fs| - 1];
      assert DistinctNames(front);
      DistinctCardinality(front);
      assert KeySet(fs) == KeySet(front) + {fs[|fs| - 1].name} by {
        forall x | x in KeySet(fs)
          ensures x in KeySet(front) + {fs[|fs| - 1].name}
        {
          var i :| 0 <= i < |fs| && fs[i].name == x;
          if i < |fs| - 1 {
            assert front[i].name == x;
          }
        }
      }
      assert fs[|fs| - 1].name !in KeySet(front);
    }
  }

  /** No two fields share a key. */
  lemma FieldNamesDistinct()
    ensures |Fields| == 22
    ensures forall i, j :: 0 <= i < j < |Fields| ==> Fields[i].name != Fields[j].name
  {
  }

  /** The record has exactly 22 keys. */
  lemma FieldCount()
    ensures |FieldSet| == 22
  {
    FieldNamesDistinct();
    DistinctCardinality(Fields);
  }

  /** Exactly the text inputs are capitalized. */
  lemma CapitalizedAreTextInputs()
    ensures forall i :: 0 <= i < |Fields| ==> (Fields[i].name in CapitalizedNames <==> Fields[i].widget == TextInput)
    ensures forall n :: n in CapitalizedNames ==> n in FieldSet
  {
    assert Fields[0].name == CapitalizedNames[0] && Fields[1].name == CapitalizedNames[1];
  }

  /** `initialState`: every field at its default. */
  function InitialState(): (r: Record)
    ensures r.Keys == FieldSet
    ensures forall i :: 0 <= i < |Fields| ==> Fields[i].name in r && r[Fields[i].name] == Fields[i].default
  {
    FieldNamesDistinct();
    map i | 0 <= i < |Fields| :: Fields[i].name := Fields[i].default
  }

  /** The defaults by widget, read off the registry. */
  lemma FieldDefaultsByWidget()
    ensures forall i :: 0 <= i < |Fields| && Fields[i].widget in {TextInput, Select} ==> Fields[i].default == Str("")
    ensures forall i :: 0 <= i < |Fields| && Fields[i].widget == Slider ==> Fields[i].default == Num(5)
    ensures forall i :: 0 <= i < |Fields| && Fields[i].widget == SliderBin ==> Fields[i].default == Num(0)
    ensures forall i :: 0 <= i < |Fields| && Fields[i].widget == NumberInput ==> Fields[i].default.Num?
  {
  }

  /**
   The defaults by kind of field: text and choice fields start empty, 1 to 10
   sliders at 5, 0/1 sliders at 0, number inputs at a number; age is 25 and
   salary 50000.
   */
  lemma InitialStateDefaults()
    ensures |InitialState()| == 22
    ensures forall i :: 0 <= i < |Fields| && Fields[i].widget in {TextInput, Select} ==>
              InitialState()[Fields[i].name] == Str("")
    ensures forall i :: 0 <= i < |Fields| && Fields[i].widget == Slider ==> InitialState()[Fields[i].name] == Num(5)
    ensures forall i :: 0 <= i < |Fields| && Fields[i].widget == SliderBin ==> InitialState()[Fields[i].name] == Num(0)
    ensures forall i :: 0 <= i < |Fields| && Fields[i].widget == NumberInput ==> InitialState()[Fields[i].name].Num?
    ensures "age" in InitialState() && InitialState()["age"] == Num(25)
    ensures "salary" in InitialState() && InitialState()["salary"] == Num(50000)
  {
    FieldCount();
    FieldDefaultsByWidget();
    assert Fields[6].name == "age" && Fields[11].name == "salary";
  }
}
