/** The chunk-count slider (ui/components/chunk_slider.py): a value in 1..30
    that `set_value` clamps and reports to an optional callback. Pixel and
    fraction arithmetic of dragging and clicking is not modelled; it ends in a
    call of `set_value`. */
module ChunkSlider {
  import opened Text

  const MinValue := 1
  const MaxValue := 30

  /** `max(min_value, min(max_value, value))`. */
  function Clamp(value: int): (r: int)
    ensures MinValue <= r <= MaxValue
    ensures MinValue <= value <= MaxValue ==> r == value
    ensures value < MinValue ==> r == MinValue
    ensures value > MaxValue ==> r == MaxValue
  {
    if value < MinValue then MinValue else if value > MaxValue then MaxValue else value
  }

  /** `f"Chunks: {value}"`: the value can be read back from the label. */
  function ValueLabel(value: int): (r: string)
    ensures |r| > 8 && r[..8] == "Chunks: "
    ensures value >= 0 ==> var d := r[8..]; (forall i :: 0 <= i < |d| ==> IsDigit(d[i])) && DecimalValue(d) == value
  {
    if value >= 0 then DecimalRoundTrip(value); "Chunks: " + IntToDecimal(value)
    else "Chunks: " + IntToDecimal(value)
  }

  class Slider {
    var currentValue: int
    var valueLabel: string
    const hasCallback: bool
    /** The values the callback has been called with. */
    var notifications: seq<int>

    /** `__init__`: the initial value is taken as given, without clamping. */
    constructor(initialValue: int, hasCallback: bool)
      ensures currentValue == initialValue && valueLabel == ValueLabel(initialValue)
      ensures this.hasCallback == hasCallback && notifications == []
    {
      currentValue := initialValue;
      valueLabel := ValueLabel(initialValue);
      this.hasCallback := hasCallback;
      notifications := [];
    }

    /** The value lies in the slider's range. */
    predicate InRange()
      reads this
    {
      MinValue <= currentValue <= MaxValue
    }

    /** `set_value`: clamp; when that changes the value, store it, relabel and
        call the callback once with it; otherwise do nothing. */
    method SetValue(value: int)
      modifies this
      ensures currentValue == Clamp(value) && InRange()
      ensures Clamp(value) != old(currentValue) ==>
        && valueLabel == ValueLabel(Clamp(value))
        && notifications == old(notifications) + (if hasCallback then [Clamp(value)] else [])
      ensures Clamp(value) == old(currentValue) ==>
        valueLabel == old(valueLabel) && notifications == old(notifications)
    {
      var v := Clamp(value);
      if v != currentValue {
        currentValue := v;
        valueLabel := ValueLabel(currentValue);
        if hasCallback {
          notifications := notifications + [currentValue];
        }
      }
    }

    /** `get_value`. */
    method GetValue() returns (value: int)
      ensures value == currentValue
    {
      value := currentValue;
    }
  }
}
