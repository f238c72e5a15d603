/** The search results panel (ui/components/results_display.py): the preview
    text of a result card, the expanded/collapsed flag of the panel, the cards
    it shows and the jump to a numbered card.

    Widgets are reduced to what the panel's logic reads back: the number of
    result cards, the count label's text, the highlighted card and the calls of
    the width-change handler. Scheduling by `after` is taken as immediate and
    the three-second highlight timeout is not modelled. */
module ResultsDisplay {
  import opened Wrappers
  import opened Text

  /** The default `max_length` of a preview. */
  const DefaultPreviewLength := 2000

  /** `s.rsplit(' ', 1)[0]`: everything before the last space, or all of `s`
      when it has none. */
  function BeforeLastSpace(s: string): (r: string)
    ensures r <= s
    ensures (r == s && ' ' !in s) || (|r| < |s| && s[|r|] == ' ' && ' ' !in s[|r| + 1..])
  {
    var i := RFind(s, ' ');
    if i >= 0 then
      var tail := s[i + 1..];
      assert forall k :: 0 <= k < |tail| ==> tail[k] == s[i + 1 + k];
      s[..i]
    else s
  }

  /** `_create_content_preview`: a placeholder for empty text; otherwise the
      stripped text when it fits, else its first `maxLength` characters cut
      back to the last space, followed by "...". */
  function ContentPreview(text: string, maxLength: int): (r: string)
    ensures text == [] ==> r == "Content not available"
    ensures text != [] && |Strip(text)| <= maxLength ==> r == Strip(text)
    ensures text != [] && AllSpace(text) && maxLength >= 0 ==> r == []
    ensures text != [] && |Strip(text)| > maxLength ==>
      && EndsWith(r, "...")
      && var cut := r[..|r| - 3];
         && cut <= Strip(text)
         && (maxLength >= 0 ==>
               && |r| <= maxLength + 3
               && var head := Strip(text)[..maxLength];
                  (cut == head && ' ' !in head) || (|cut| < maxLength && head[|cut|] == ' ' && ' ' !in head[|cut| + 1..]))
  {
    if text == [] then "Content not available"
    else
      var t := Strip(text);
      if |t| <= maxLength then t
      else
        var head := PyHead(t, maxLength);
        var cut := BeforeLastSpace(head);
        var r := cut + "...";
        assert r[..|r| - 3] == cut;
        r
  }

  /** `f"{len(results)} results"`: the count can be read back from the label. */
  function CountText(n: nat): (r: string)
    ensures |r| > 8 && r[|r| - 8..] == " results"
    ensures var d := r[..|r| - 8]; (forall i :: 0 <= i < |d| ==> IsDigit(d[i])) && DecimalValue(d) == n
  {
    DecimalRoundTrip(n);
    var r := IntToDecimal(n) + " results";
    assert r[..|r| - 8] == IntToDecimal(n);
    r
  }

  /** The panel's state. */
  class ResultsPanel {
    var isExpanded: bool
    /** The number of result cards (`CTkFrame` children of the scroll area). */
    var cards: nat
    var countText: string
    /** The 1-based number of the card last highlighted, while it exists. */
    var highlighted: Option<nat>
    var hasWidthHandler: bool
    /** The arguments the width-change handler has been called with. */
    var widthNotices: seq<bool>

    /** `__init__`/`_setup_ui`: collapsed, no cards, "0 results". */
    constructor()
      ensures !isExpanded && cards == 0 && countText == "0 results" && highlighted == None
      ensures !hasWidthHandler && widthNotices == []
    {
      isExpanded := false;
      cards := 0;
      countText := "0 results";
      highlighted := None;
      hasWidthHandler := false;
      widthNotices := [];
    }

    /** `set_width_change_handler`: `handler` says whether the handler given is
        truthy; `None` or any other falsy handler switches notices off. */
    method SetWidthChangeHandler(handler: bool)
      modifies this
      ensures hasWidthHandler == handler
      ensures isExpanded == old(isExpanded) && cards == old(cards) && countText == old(countText)
      ensures highlighted == old(highlighted) && widthNotices == old(widthNotices)
    {
      hasWidthHandler := handler;
    }

    /** `_toggle_expansion`: negate the flag and tell the handler, if any, the
        new state. */
    method ToggleExpansion()
      modifies this
      ensures isExpanded == !old(isExpanded)
      ensures widthNotices == old(widthNotices) + (if hasWidthHandler then [isExpanded] else [])
      ensures cards == old(cards) && countText == old(countText) && highlighted == old(highlighted)
      ensures hasWidthHandler == old(hasWidthHandler)
    {
      isExpanded := !isExpanded;
      if hasWidthHandler {
        widthNotices := widthNotices + [isExpanded];
      }
    }

    /** `auto_expand_on_results`: expand unless already expanded. */
    method AutoExpandOnResults()
      modifies this
      ensures isExpanded
      ensures widthNotices == old(widthNotices) + (if !old(isExpanded) && hasWidthHandler then [true] else [])
      ensures cards == old(cards) && countText == old(countText) && highlighted == old(highlighted)
      ensures hasWidthHandler == old(hasWidthHandler)
    {
      if !isExpanded {
        ToggleExpansion();
      }
    }

    /** `clear`: drop every card, reset the count and collapse. */
    method Clear()
      modifies this
      ensures !isExpanded && cards == 0 && countText == "0 results" && highlighted == None
      ensures widthNotices == old(widthNotices) + (if old(isExpanded) && hasWidthHandler then [false] else [])
      ensures hasWidthHandler == old(hasWidthHandler)
    {
      cards := 0;
      highlighted := None;
      countText := "0 results";
      if isExpanded {
        ToggleExpansion();
      }
    }

    /** `display_results` for `n` results: one card each; an empty list shows
        "0 results" and leaves the panel as it was, any other expands it. */
    method DisplayResults(n: nat)
      modifies this
      ensures cards == n && highlighted == None
      ensures countText == if n == 0 then "0 results" else CountText(n)
      ensures n == 0 ==> isExpanded == old(isExpanded) && widthNotices == old(widthNotices)
      ensures n > 0 ==>
        && isExpanded
        && widthNotices == old(widthNotices) + (if !old(isExpanded) && hasWidthHandler then [true] else [])
      ensures hasWidthHandler == old(hasWidthHandler)
    {
      cards := 0;
      highlighted := None;
      if n == 0 {
        countText := "0 results";
        return;
      }
      countText := CountText(n);
      cards := n;
      AutoExpandOnResults();
    }

    /** `jump_to_result` followed by `_perform_jump_to_result`: expand, then
        highlight card `resultIndex` when it is one of the cards, counted from
        1; any other index changes nothing more. */
    method JumpToResult(resultIndex: int)
      modifies this
      ensures isExpanded
      ensures 1 <= resultIndex <= cards ==> highlighted == Some(resultIndex)
      ensures !(1 <= resultIndex <= cards) ==> highlighted == old(highlighted)
      ensures widthNotices == old(widthNotices) + (if !old(isExpanded) && hasWidthHandler then [true] else [])
      ensures cards == old(cards) && countText == old(countText) && hasWidthHandler == old(hasWidthHandler)
    {
      if !isExpanded {
        ToggleExpansion();
      }
      var zeroBasedIndex := resultIndex - 1;
      if 0 <= zeroBasedIndex < cards {
        highlighted := Some(resultIndex);
      }
    }
  }
}
