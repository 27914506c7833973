/** The bounded quantity counter used by menu products, cart lines and the
    booking form (components/AmountWidget.js, copied in script.js). */
module AmountWidgets {
  import opened Wrappers

  const DefaultValue: int := 1
  const DefaultMin: int := 1
  const DefaultMax: int := 9

  predicate InRange(v: int)
  {
    DefaultMin <= v <= DefaultMax
  }

  /** The value setValue keeps when the current value is `current` and the
      input parses to `parsed`: the parsed number replaces the current value
      only when it is a number, differs from it and lies within the bounds. */
  function Resolve(current: int, parsed: Option<int>): (r: int)
    ensures r != current <==> parsed.Some? && parsed.value != current && InRange(parsed.value)
    ensures r != current ==> parsed == Some(r)
    ensures InRange(current) ==> InRange(r)
  {
    if parsed.Some? && parsed.value != current && InRange(parsed.value) then parsed.value else current
  }

  /** `--input.value` / `++input.value`: NaN stays NaN. */
  function Shift(input: Option<int>, delta: int): Option<int>
  {
    match input
    case None => None
    case Some(n) => Some(n + delta)
  }

  /** The value after a run of inputs, each handed to setValue in turn. */
  function Run(current: int, inputs: seq<Option<int>>): int
  {
    if |inputs| == 0 then current else Resolve(Run(current, inputs[..|inputs| - 1]), inputs[|inputs| - 1])
  }

  class AmountWidget {
    var value: int
    /** parseInt of the input element's content; None is NaN. */
    var input: Option<int>
    /** How many 'updated' events the widget has dispatched. */
    var announced: nat

    /** The value is within bounds and the input shows it. */
    ghost predicate Valid()
      reads this
    {
      InRange(value) && input == Some(value)
    }

    /** Starts from the default value, then hands the input's initial content to setValue. */
    constructor (initialInput: Option<int>)
      ensures Valid()
      ensures value == Resolve(DefaultValue, initialInput)
      ensures announced == 1
    {
      value := DefaultValue;
      input := initialInput;
      announced := 0;
      new;
      SetValue(initialInput);
    }

    method SetValue(parsed: Option<int>)
      requires InRange(value)
      modifies this
      ensures Valid()
      ensures value == Resolve(old(value), parsed)
      ensures announced == old(announced) + 1
    {
      if parsed.Some? && parsed.value != value && parsed.value >= DefaultMin && parsed.value <= DefaultMax {
        value := parsed.value;
      }
      input := Some(value);
      Announce();
    }

    method Announce()
      modifies this`announced
      ensures announced == old(announced) + 1
    {
      announced := announced + 1;
    }

    /** The input's 'change' listener: the typed content goes to setValue. */
    method Change(typed: Option<int>)
      requires Valid()
      modifies this
      ensures Valid()
      ensures value == Resolve(old(value), typed)
      ensures announced == old(announced) + 1
    {
      input := typed;
      SetValue(input);
    }

    /** The '-' link: decrement the input, then setValue. */
    method Decrease()
      requires Valid()
      modifies this
      ensures Valid()
      ensures value == Resolve(old(value), Some(old(value) - 1))
      ensures old(value) == DefaultMin ==> value == DefaultMin
      ensures old(value) > DefaultMin ==> value == old(value) - 1
      ensures announced == old(announced) + 1
    {
      input := Shift(input, -1);
      SetValue(input);
    }

    /** The '+' link: increment the input, then setValue. */
    method Increase()
      requires Valid()
      modifies this
      ensures Valid()
      ensures value == Resolve(old(value), Some(old(value) + 1))
      ensures old(value) == DefaultMax ==> value == DefaultMax
      ensures old(value) < DefaultMax ==> value == old(value) + 1
      ensures announced == old(announced) + 1
    {
      input := Shift(input, 1);
      SetValue(input);
    }
  }

  /** Every in-range number is taken as it is. */
  lemma InRangeInputAccepted(current: int, q: int)
    requires InRange(q)
    ensures Resolve(current, Some(q)) == q
  {
  }

  /** NaN and out-of-range numbers leave the value where it was. */
  lemma InvalidInputRejected(current: int, parsed: Option<int>)
    requires parsed.None? || !InRange(parsed.value)
    ensures Resolve(current, parsed) == current
  {
  }

  /** Handing the same input to setValue twice leaves the value of handing it once. */
  lemma ResolveIdempotent(current: int, parsed: Option<int>)
    ensures Resolve(Resolve(current, parsed), parsed) == Resolve(current, parsed)
  {
  }

  /** From the default value, no run of inputs leaves the bounds. */
  lemma {:induction false} RunStaysInRange(inputs: seq<Option<int>>)
    ensures InRange(Run(DefaultValue, inputs))
  {
    if |inputs| > 0 {
      RunStaysInRange(inputs[..|inputs| - 1]);
    }
  }

  /** The value after a run is the default or the last in-range number of the run. */
  lemma {:induction false} RunEndsOnAnInput(inputs: seq<Option<int>>)
    ensures var v := Run(DefaultValue, inputs);
      v == DefaultValue || exists i :: 0 <= i < |inputs| && inputs[i] == Some(v)
  {
    if |inputs| > 0 {
      var prefix := inputs[..|inputs| - 1];
      RunEndsOnAnInput(prefix);
      var v := Run(DefaultValue, prefix);
      if v != DefaultValue {
        var i :| 0 <= i < |prefix| && prefix[i] == Some(v);
        assert inputs[i] == Some(v);
      }
    }
  }
}
