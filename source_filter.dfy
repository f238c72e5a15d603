/** The document-type filter (ui/components/source_filter.py): the vector
    names on offer, the set of selected ones, the status line and the lists
    handed to the change callback. Checkbox widgets are left out; their ticks
    follow the selection. */
module SourceFilter {
  import opened Text

  /** The elements of a list, as `set(list)` gives them. */
  function Elements(s: seq<string>): (r: set<string>)
    ensures forall x :: x in r <==> x in s
  {
    if s == [] then {}
    else
      var init := s[..|s| - 1];
      assert forall x :: x in s <==> x in init || x == s[|s| - 1];
      Elements(init) + {s[|s| - 1]}
  }

  predicate Distinct(s: seq<string>) {
    forall i, j :: 0 <= i < j < |s| ==> s[i] != s[j]
  }

  /** `list(a_set)`: every element once, in some order. */
  ghost predicate ListsSet(l: seq<string>, s: set<string>) {
    Distinct(l) && forall x :: x in l <==> x in s
  }

  /** A list has at most as many elements as entries, and as many exactly when
      no entry repeats. */
  lemma {:induction false} ElementsCount(s: seq<string>)
    ensures |Elements(s)| <= |s|
    ensures |Elements(s)| == |s| <==> Distinct(s)
  {
    if s != [] {
      var init := s[..|s| - 1];
      var last := s[|s| - 1];
      ElementsCount(init);
      assert s == init + [last];
      DistinctSnoc(init, last);
      if last in init {
        assert Elements(s) == Elements(init);
      } else {
        assert Elements(s) == Elements(init) + {last};
      }
    }
  }

  lemma DistinctSnoc(init: seq<string>, last: string)
    ensures Distinct(init + [last]) <==> Distinct(init) && last !in init
  {
    var s := init + [last];
    assert forall i :: 0 <= i < |init| ==> init[i] == s[i];
    assert s[|init|] == last;
  }

  /** A list of exactly the elements of a set is as long as the set. */
  lemma ListsSetCount(l: seq<string>, s: set<string>)
    requires ListsSet(l, s)
    ensures |l| == |s|
  {
    ElementsCount(l);
    assert Elements(l) == s;
  }

  /** `list(selected_sources)`. */
  method SetToList(s: set<string>) returns (l: seq<string>)
    ensures ListsSet(l, s)
  {
    l := [];
    var remaining := s;
    while remaining != {}
      invariant remaining <= s
      invariant Distinct(l)
      invariant forall x :: x in l <==> x in s - remaining
      decreases |remaining|
    {
      var x :| x in remaining;
      DistinctSnoc(l, x);
      l := l + [x];
      remaining := remaining - {x};
    }
  }

  /** `_update_status`: the line shown under the checkboxes. It says that
      nothing is loaded exactly when nothing is on offer; otherwise it warns
      about an empty selection and says "All" for a selection as large as the
      list. */
  function StatusText(available: seq<string>, selected: set<string>): (r: string)
    ensures r == "No document types loaded" <==> available == []
    ensures available != [] && |selected| == 0 ==> StartsWith(r, "\U{26A0}\U{FE0F}  No document types selected")
    ensures available != [] && |selected| > 0 && |selected| == |available| ==> StartsWith(r, "\U{2705} All document types selected")
  {
    if available == [] then "No document types loaded"
    else if |selected| == 0 then
      "\U{26A0}\U{FE0F}  No document types selected (" + IntToDecimal(|available|) + " available)"
    else if |selected| == |available| then
      "\U{2705} All document types selected (" + IntToDecimal(|available|) + " total)"
    else
      "\U{1F4DA} " + IntToDecimal(|selected|) + "/" + IntToDecimal(|available|) + " document types selected"
  }

  /** After "Select All" the status reads "All ..." exactly when the list on
      offer has no repeated name; with a repeat it shows fewer selected than
      available. */
  lemma SelectAllStatus(available: seq<string>)
    requires available != []
    ensures Distinct(available) ==>
      StatusText(available, Elements(available)) == "\U{2705} All document types selected (" + IntToDecimal(|available|) + " total)"
    ensures !Distinct(available) ==>
      StatusText(available, Elements(available))
        == "\U{1F4DA} " + IntToDecimal(|Elements(available)|) + "/" + IntToDecimal(|available|) + " document types selected"
  {
    ElementsCount(available);
    assert available[0] in Elements(available);
  }

  class Filter {
    var availableSources: seq<string>
    var selectedSources: set<string>
    var statusText: string
    /** The lists the change callback has been called with. */
    var notifications: seq<seq<string>>

    /** `__init__`: nothing on offer or selected. */
    constructor()
      ensures availableSources == [] && selectedSources == {} && notifications == []
      ensures statusText == "No sources loaded"
    {
      availableSources := [];
      selectedSources := {};
      statusText := "No sources loaded";
      notifications := [];
    }

    /** The state every change leaves behind: the status matches the
        selection and the callback has just been told it. */
    ghost predicate Notified(before: seq<seq<string>>)
      reads this
    {
      && statusText == StatusText(availableSources, selectedSources)
      && |notifications| == |before| + 1
      && notifications[..|before|] == before
      && ListsSet(notifications[|before|], selectedSources)
    }

    method Notify()
      modifies this
      ensures availableSources == old(availableSources) && selectedSources == old(selectedSources)
      ensures Notified(old(notifications))
    {
      statusText := StatusText(availableSources, selectedSources);
      var current := SetToList(selectedSources);
      notifications := notifications + [current];
    }

    /** `_on_source_toggle`: a ticked box adds its name, an unticked one
        discards it (absent or not). */
    method OnSourceToggle(checked: bool, vectorName: string)
      modifies this
      ensures availableSources == old(availableSources)
      ensures selectedSources == if checked then old(selectedSources) + {vectorName} else old(selectedSources) - {vectorName}
      ensures Notified(old(notifications))
    {
      if checked {
        selectedSources := selectedSources + {vectorName};
      } else {
        selectedSources := selectedSources - {vectorName};
      }
      Notify();
    }

    /** `_select_all_sources`: exactly the names on offer. */
    method SelectAllSources()
      modifies this
      ensures availableSources == old(availableSources)
      ensures selectedSources == Elements(availableSources)
      ensures Notified(old(notifications))
    {
      selectedSources := Elements(availableSources);
      Notify();
    }

    /** `_select_none_sources`, also `clear_selection`. */
    method SelectNoneSources()
      modifies this
      ensures availableSources == old(availableSources)
      ensures selectedSources == {}
      ensures Notified(old(notifications))
    {
      selectedSources := {};
      Notify();
    }

    /** `load_sources`: offer the given names and select them all. */
    method LoadSources(sources: seq<string>)
      modifies this
      ensures availableSources == sources
      ensures selectedSources == Elements(sources)
      ensures Notified(old(notifications))
    {
      availableSources := sources;
      SelectAllSources();
      statusText := StatusText(availableSources, selectedSources);
    }

    /** `get_selected_sources`. */
    method GetSelectedSources() returns (l: seq<string>)
      ensures ListsSet(l, selectedSources)
    {
      l := SetToList(selectedSources);
    }
  }
}
