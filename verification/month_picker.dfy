/**
 * The month field with its "Present" checkbox (`src/components/ui/MonthPicker.jsx`):
 * two pieces of local state, `isPresent` and `dateValue`, updated by the
 * effect that follows the `value` prop and by the two input handlers, which
 * report the new value to the parent through `onChange`.
 */
module MonthPicker {
  import opened Wrappers

  /** The two state fields. */
  datatype Picker = Picker(isPresent: bool, dateValue: string)

  /** The words that mean "still ongoing" when they come in as the value. */
  predicate MeansPresent(value: Option<string>) {
    value == Some("Present") || value == Some("Atualmente")
  }

  /** The effect on `[value]`; `None` is an absent value. */
  function Synced(value: Option<string>): (p: Picker)
    ensures MeansPresent(value) ==> p == Picker(true, "")
    ensures !MeansPresent(value) ==> !p.isPresent && p.dateValue == value.GetOr("")
  {
    if MeansPresent(value) then Picker(true, "") else Picker(false, value.GetOr(""))
  }

  /** `handleDateChange`: the new date is kept; the checkbox is untouched. */
  function DateChanged(p: Picker, newValue: string): (r: Picker)
    ensures r.dateValue == newValue && r.isPresent == p.isPresent
  {
    p.(dateValue := newValue)
  }

  /** `handleCheckboxChange`: the new state and the value handed to `onChange`. */
  function Toggled(p: Picker, checked: bool): (r: (Picker, string))
    ensures r.0.isPresent == checked && r.0.dateValue == p.dateValue
    ensures checked ==> r.1 == "Present"
    ensures !checked ==> r.1 == p.dateValue
  {
    (p.(isPresent := checked), if checked then "Present" else p.dateValue)
  }

  /** The month input is disabled when the field is or when "Present" is ticked. */
  function InputDisabled(disabled: bool, p: Picker): (r: bool)
    ensures r <==> disabled || p.isPresent
  {
    disabled || p.isPresent
  }

  /**
   * Ticking, then receiving the echoed "Present" back, then unticking emits
   * the empty string: the date typed before ticking is gone.
   */
  lemma UntickAfterEchoEmitsEmpty(p: Picker)
    ensures var ticked := Toggled(p, true);
      var echoed := Synced(Some(ticked.1));
      Toggled(echoed, false).1 == ""
  {
  }

  /** Ticking never reports the Portuguese spelling, though it is accepted coming in. */
  lemma TickEmitsEnglishOnly(p: Picker)
    ensures Toggled(p, true).1 != "Atualmente"
    ensures Synced(Some("Atualmente")).isPresent
  {
  }

  /**
   * A date edit whose value comes back through the parent leaves the state
   * the edit already gave it, unless the text was one of the two keywords.
   */
  lemma EchoedDateIsStable(p: Picker, v: string)
    requires !p.isPresent && !MeansPresent(Some(v))
    ensures Synced(Some(v)) == DateChanged(p, v)
  {
  }

  /** Whatever value arrives, the input is enabled after sync exactly when it is not "Present" and not disabled. */
  lemma SyncedEnablement(value: Option<string>, disabled: bool)
    ensures !InputDisabled(disabled, Synced(value)) <==> !disabled && !MeansPresent(value)
  {
  }

  /** The component instance. */
  class MonthField {
    var isPresent: bool
    var dateValue: string

    function Model(): Picker
      reads this
    {
      Picker(isPresent, dateValue)
    }

    /** Mount: `useState(false)`, `useState("")`, then the effect with the first value. */
    constructor(value: Option<string>)
      ensures Model() == Synced(value)
    {
      isPresent := false;
      dateValue := "";
      new;
      Sync(value);
    }

    /** The effect after `value` changes. */
    method Sync(value: Option<string>)
      modifies this
      ensures Model() == Synced(value)
    {
      if value == Some("Present") || value == Some("Atualmente") {
        isPresent := true;
        dateValue := "";
      } else {
        isPresent := false;
        dateValue := value.GetOr("");
      }
    }

    /** `handleDateChange`; the reported value is `None` when there is no listener. */
    method ChangeDate(newValue: string, hasListener: bool) returns (reported: Option<string>)
      modifies this
      ensures Model() == DateChanged(old(Model()), newValue)
      ensures reported == if hasListener then Some(newValue) else None
    {
      dateValue := newValue;
      reported := None;
      if hasListener {
        reported := Some(newValue);
      }
    }

    /** `handleCheckboxChange`: without a listener the call to it throws after the state is set. */
    method ChangeCheckbox(checked: bool, hasListener: bool) returns (reported: Attempt<string>)
      modifies this
      ensures Model() == Toggled(old(Model()), checked).0
      ensures hasListener ==> reported == Done(Toggled(old(Model()), checked).1)
      ensures !hasListener ==> reported == Threw
    {
      var before := dateValue;
      isPresent := checked;
      if !hasListener {
        return Threw;
      }
      if checked {
        reported := Done("Present");
      } else {
        reported := Done(before);
      }
    }
  }
}
