/**
 The change handler of the form: the value normalisation `handleChange`
 performs on an edited input, and the record update it hands to the state
 setter, `prev => ({...prev, [name]: finalValue})`.
 */
module Reducer {
  import opened Capitalize
  import opened Values
  import opened Registry

  /** The three properties of the event target that `handleChange` reads. */
  datatype ChangeEvent = ChangeEvent(name: string, value: string, inputType: string)

  /** The `type` of an input whose value is coerced with `Number`. */
  const NumberType: string := "number"

  /**
   The value `handleChange` stores: a number input's value is coerced first,
   then the capitalization of the two free-text fields is applied to the raw
   value and wins over the coercion.
   */
  function Normalize(e: ChangeEvent): (v: Value)
    ensures e.name in CapitalizedNames ==> v == Str(CapitalizeWords(e.value))
    ensures e.name !in CapitalizedNames && e.inputType == NumberType ==> v == ParseNumber(e.value)
    ensures e.name !in CapitalizedNames && e.inputType != NumberType ==> v == Str(e.value)
  {
    var coerced := if e.inputType == NumberType then ParseNumber(e.value) else Str(e.value);
    if e.name in CapitalizedNames then Str(CapitalizeWords(e.value)) else coerced
  }

  /** One change event: the previous record with the event's field replaced by the normalised value. */
  function ApplyChange(rec: Record, e: ChangeEvent): (r: Record)
    ensures r.Keys == rec.Keys + {e.name}
    ensures r[e.name] == Normalize(e)
    ensures forall k :: k in rec && k != e.name ==> r[k] == rec[k]
  {
    rec[e.name := Normalize(e)]
  }

  /** The names a session of events edits. */
  function EventNames(events: seq<ChangeEvent>): set<string>
    decreases |events|
  {
    if |events| == 0 then {} else {events[0].name} + EventNames(events[1..])
  }

  /** A session of edits, applied in the order they happen. */
  function ApplyChanges(rec: Record, events: seq<ChangeEvent>): (r: Record)
    ensures r.Keys == rec.Keys + EventNames(events)
    ensures forall k :: k in rec && k !in EventNames(events) ==> r[k] == rec[k]
    decreases |events|
  {
    if |events| == 0 then rec
    else
      ApplyChanges(ApplyChange(rec, events[0]), events[1..])
  }

  /**
   Reference for the value a field ends with: the normalised value of the last
   event naming it, scanning from the end, or `initial` when no event names it.
   */
  function LatestValue(events: seq<ChangeEvent>, k: string, initial: Value): Value
    decreases |events|
  {
    if |events| == 0 then initial
    else if events[|events| - 1].name == k then Normalize(events[|events| - 1])
    else LatestValue(events[..|events| - 1], k, initial)
  }

  /** Applying one more event after a session is the session extended by that event. */
  lemma {:induction false} ApplyChangesSnoc(rec: Record, events: seq<ChangeEvent>, e: ChangeEvent)
    ensures ApplyChanges(rec, events + [e]) == ApplyChange(ApplyChanges(rec, events), e)
    decreases |events|
  {
    if |events| > 0 {
      assert (events + [e])[1..] == events[1..] + [e];
      ApplyChangesSnoc(ApplyChange(rec, events[0]), events[1..], e);
    } else {
      assert (events + [e])[1..] == [];
    }
  }

  /**
   After a session, a key is present exactly when it was present before or
   some event names it, and it holds the value of the last edit to it, or its
   old value if it was not edited. For a key that was absent, the reference's
   fallback `NaN` is never reached, since some event names it.
   */
  lemma {:induction false} ApplyChangesLatest(rec: Record, events: seq<ChangeEvent>, k: string)
    ensures k in ApplyChanges(rec, events) <==> k in rec || k in EventNames(events)
    ensures k in ApplyChanges(rec, events) ==>
              ApplyChanges(rec, events)[k] == LatestValue(events, k, if k in rec then rec[k] else NaN)
    decreases |events|
  {
    if |events| > 0 {
      var front := events[..|events| - 1];
      var e := events[|events| - 1];
      assert events == front + [e];
      ApplyChangesSnoc(rec, front, e);
      ApplyChangesLatest(rec, front, k);
    }
  }

  /** Edits to known fields never add or drop a key: the record keeps exactly the 22 fields. */
  lemma {:induction false} KeySetInvariant(rec: Record, events: seq<ChangeEvent>)
    requires rec.Keys == FieldSet
    requires forall i :: 0 <= i < |events| ==> events[i].name in FieldSet
    ensures ApplyChanges(rec, events).Keys == FieldSet
    ensures |ApplyChanges(rec, events)| == 22
    decreases |events|
  {
    if |events| > 0 {
      KeySetInvariant(ApplyChange(rec, events[0]), events[1..]);
    } else {
      FieldCount();
    }
  }

  /** The update is not guarded: an event for an unknown name adds a 23rd key. */
  lemma UnknownNameAddsKey(rec: Record, e: ChangeEvent)
    requires rec.Keys == FieldSet && e.name !in FieldSet
    ensures ApplyChange(rec, e).Keys == FieldSet + {e.name}
    ensures |ApplyChange(rec, e)| == 23
  {
    FieldCount();
  }

  /** Replaying an event changes nothing more. */
  lemma ApplyChangeIdempotent(rec: Record, e: ChangeEvent)
    ensures ApplyChange(ApplyChange(rec, e), e) == ApplyChange(rec, e)
  {
  }

  /** Edits to different fields commute. */
  lemma ApplyChangeCommutes(rec: Record, e1: ChangeEvent, e2: ChangeEvent)
    requires e1.name != e2.name
    ensures ApplyChange(ApplyChange(rec, e1), e2) == ApplyChange(ApplyChange(rec, e2), e1)
  {
  }

  /**
   A free-text input shows the stored value; the next event from it that
   reports that very text leaves the record as it is, whatever its input type.
   */
  lemma CapitalizedRedisplayStable(rec: Record, e: ChangeEvent, inputType: string)
    requires e.name in CapitalizedNames
    ensures ApplyChange(rec, e)[e.name].Str?
    ensures ApplyChange(ApplyChange(rec, e), ChangeEvent(e.name, ApplyChange(rec, e)[e.name].text, inputType))
            == ApplyChange(rec, e)
  {
    CapitalizeWordsIdempotent(e.value);
  }

  /**
   A number input shows the stored integer; the event that reports its
   rendering leaves the record as it is.
   */
  lemma NumberRedisplayStable(rec: Record, e: ChangeEvent, n: int)
    requires e.name !in CapitalizedNames && e.inputType == NumberType
    requires ApplyChange(rec, e)[e.name] == Num(n)
    ensures ApplyChange(ApplyChange(rec, e), ChangeEvent(e.name, IntToString(n), NumberType)) == ApplyChange(rec, e)
  {
    ParseNumberRoundTrip(n);
  }

  /** The event a field's own widget sends: its name and the `type` of the element that widget renders. */
  function WidgetEvent(i: int, value: string): (e: ChangeEvent)
    requires 0 <= i < |Fields|
    ensures e.name == Fields[i].name && e.name in FieldSet && e.value == value
    ensures e.inputType == InputType(Fields[i].widget)
    ensures e.inputType == NumberType <==> Fields[i].widget == NumberInput
  {
    ChangeEvent(Fields[i].name, value, InputType(Fields[i].widget))
  }

  /**
   What each widget's edit stores: free text is capitalized, a choice is kept
   as is, a number input is coerced to a number or `NaN`, and a slider, whose
   element has type `range`, is kept as the reported string.
   */
  lemma WidgetEventValue(i: int, value: string)
    requires 0 <= i < |Fields|
    ensures Fields[i].widget == TextInput ==> Normalize(WidgetEvent(i, value)) == Str(CapitalizeWords(value))
    ensures Fields[i].widget == Select ==> Normalize(WidgetEvent(i, value)) == Str(value)
    ensures Fields[i].widget == NumberInput ==> Normalize(WidgetEvent(i, value)) == ParseNumber(value)
    ensures Fields[i].widget in {Slider, SliderBin} ==> Normalize(WidgetEvent(i, value)) == Str(value)
  {
    CapitalizedAreTextInputs();
  }

  /** A number input never stores a string: its value is a number exactly when it is empty or an integer literal. */
  lemma NumberInputStoresNumber(rec: Record, i: int, value: string)
    requires 0 <= i < |Fields| && Fields[i].widget == NumberInput
    ensures !ApplyChange(rec, WidgetEvent(i, value))[Fields[i].name].Str?
    ensures ApplyChange(rec, WidgetEvent(i, value))[Fields[i].name].Num? <==> value == "" || IsIntegerLiteral(value)
  {
    WidgetEventValue(i, value);
  }

  /** A well-formed record: exactly the 22 keys, and both free-text fields hold capitalized strings. */
  predicate WellFormed(rec: Record)
  {
    && rec.Keys == FieldSet
    && forall n :: n in CapitalizedNames ==> n in rec && rec[n].Str? && IsCapitalized(rec[n].text)
  }

  lemma InitialStateWellFormed()
    ensures WellFormed(InitialState())
  {
    assert IsCapitalized("");
    assert Fields[0].name == CapitalizedNames[0] && Fields[1].name == CapitalizedNames[1];
  }

  /** Any edit of a known field keeps the record well-formed. */
  lemma ApplyChangePreservesWellFormed(rec: Record, e: ChangeEvent)
    requires WellFormed(rec) && e.name in FieldSet
    ensures WellFormed(ApplyChange(rec, e))
  {
    if e.name in CapitalizedNames {
      CapitalizeWordsIsCapitalized(e.value);
    }
  }

  /** Any session of edits to known fields keeps a well-formed record well-formed. */
  lemma {:induction false} SessionWellFormed(rec: Record, events: seq<ChangeEvent>)
    requires WellFormed(rec)
    requires forall i :: 0 <= i < |events| ==> events[i].name in FieldSet
    ensures WellFormed(ApplyChanges(rec, events))
    decreases |events|
  {
    if |events| > 0 {
      ApplyChangePreservesWellFormed(rec, events[0]);
      SessionWellFormed(ApplyChange(rec, events[0]), events[1..]);
    }
  }

  /** Typing `new york` into the field of study stores `New York`. */
  lemma FieldOfStudyExample()
    ensures ApplyChange(InitialState(), ChangeEvent("fieldOfStudy", "new york", "text"))["fieldOfStudy"]
            == Str("New York")
  {
    CapitalizeNewYork();
  }

  /**
   Moving the job-satisfaction slider to 7 stores the string `"7"`, although
   the field started as the number 5.
   */
  lemma SliderStoresString()
    ensures ApplyChange(InitialState(), ChangeEvent("jobSatisfaction", "7", "range"))["jobSatisfaction"] == Str("7")
  {
  }
}
