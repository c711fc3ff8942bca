/** The counter of 07_signal_slot/01_simple.py: an integer, a label that
    shows it, and the `value_changed` signal that connects the two. */
module Counter {
  import opened Strings

  class CounterWidget {
    var counter: int
    var labelText: string
    /** Every value `value_changed` has carried, oldest first. */
    ghost var emitted: seq<int>

    /** The label shows the counter in decimal. */
    ghost predicate Valid()
      reads this
    {
      labelText == IntToString(counter)
    }

    constructor ()
      ensures Valid() && counter == 0 && labelText == "0" && emitted == []
    {
      counter := 0;
      labelText := "0";
      emitted := [];
    }

    method Increment()
      requires Valid()
      modifies this
      ensures Valid()
      ensures counter == old(counter) + 1
      ensures emitted == old(emitted) + [counter]
    {
      counter := counter + 1;
      EmitValueChanged(counter);
    }

    /** No lower bound: the counter may go negative. */
    method Decrement()
      requires Valid()
      modifies this
      ensures Valid()
      ensures counter == old(counter) - 1
      ensures emitted == old(emitted) + [counter]
    {
      counter := counter - 1;
      EmitValueChanged(counter);
    }

    method Reset()
      requires Valid()
      modifies this
      ensures Valid()
      ensures counter == 0
      ensures emitted == old(emitted) + [0]
    {
      counter := 0;
      EmitValueChanged(counter);
    }

    /** The signal is delivered synchronously to its one slot, `UpdateLabel`. */
    method EmitValueChanged(value: int)
      modifies this`emitted, this`labelText
      ensures emitted == old(emitted) + [value]
      ensures labelText == IntToString(value)
    {
      emitted := emitted + [value];
      UpdateLabel(value);
    }

    method UpdateLabel(value: int)
      modifies this`labelText
      ensures labelText == IntToString(value)
    {
      labelText := IntToString(value);
    }
  }

  /** Reading the label back as a number gives the counter. */
  lemma LabelShowsCounter(w: CounterWidget)
    requires w.Valid()
    ensures IsDecimal(w.labelText) && ParseInt(w.labelText) == w.counter
  {
    IntToStringRoundTrip(w.counter);
  }

  /** An increment followed by a decrement restores the counter and the label. */
  method IncrementThenDecrement(w: CounterWidget)
    requires w.Valid()
    modifies w
    ensures w.Valid() && w.counter == old(w.counter) && w.labelText == old(w.labelText)
    ensures w.emitted == old(w.emitted) + [old(w.counter) + 1, old(w.counter)]
  {
    w.Increment();
    w.Decrement();
  }
}
