/**
 * The multi-select chip control (`MultiChipsComponent`): an ordered list of
 * selected chips, a suggestion list filtered against all of them, the same
 * debounced search query and panel toggle as the single-select control.
 *
 * Items are compared by their `JSON.stringify` text, which is the control's
 * `key` function here. Event emitters are output logs, the search box is its
 * text, and the debounce timer is a pending query plus `FireTimer`.
 */
module MultiChip {
  import opened Common

  /** Some selected chip has the same key as `obj`. */
  predicate Selected<T>(key: T -> string, chips: seq<T>, obj: T)
  {
    exists i :: 0 <= i < |chips| && key(chips[i]) == key(obj)
  }

  function NotSelected<T>(key: T -> string, chips: seq<T>): T -> bool
  {
    obj => !Selected(key, chips, obj)
  }

  /** The suggestion list `optionChanged` leaves behind. */
  function FilteredOptions<T>(key: T -> string, chips: seq<T>, options: seq<T>): seq<T>
  {
    Filter(NotSelected(key, chips), options)
  }

  /** `filterOptions`: scans the chips and rejects `obj` at the first chip with the same key. */
  method FilterOptions<T>(key: T -> string, chips: seq<T>, obj: T) returns (keep: bool)
    ensures keep <==> forall j :: 0 <= j < |chips| ==> key(chips[j]) != key(obj)
  {
    var i := 0;
    while i < |chips|
      invariant 0 <= i <= |chips|
      invariant forall j :: 0 <= j < i ==> key(chips[j]) != key(obj)
    {
      if key(chips[i]) == key(obj) {
        return false;
      }
      i := i + 1;
    }
    return true;
  }

  /**
   * The filter keeps exactly the options whose key matches no chip's key:
   * the result is a subsequence of the input, a kept value keeps all of its
   * occurrences and a dropped value loses all of them.
   */
  lemma FilterKeepsExactly<T>(key: T -> string, chips: seq<T>, options: seq<T>)
    ensures IsSubsequence(FilteredOptions(key, chips, options), options)
    ensures forall x :: multiset(FilteredOptions(key, chips, options))[x] ==
                        if Selected(key, chips, x) then 0 else multiset(options)[x]
  {
    FilterIsSubsequence(NotSelected(key, chips), options);
    FilterCounts(NotSelected(key, chips), options);
  }

  /** Right after filtering, no suggestion shares its key with any chip. */
  lemma FilterDropsEveryChip<T>(key: T -> string, chips: seq<T>, options: seq<T>)
    ensures forall i, j :: 0 <= i < |FilteredOptions(key, chips, options)| && 0 <= j < |chips| ==>
              key(FilteredOptions(key, chips, options)[i]) != key(chips[j])
  {
  }

  /** Filtering twice against the same chips is filtering once. */
  lemma FilterTwiceIsOnce<T>(key: T -> string, chips: seq<T>, options: seq<T>)
    ensures FilteredOptions(key, chips, FilteredOptions(key, chips, options)) ==
            FilteredOptions(key, chips, options)
  {
    FilterIdempotent(NotSelected(key, chips), options);
  }

  /** `splice(index, 1)` on a list: the element at `index` is removed and the rest close up in order. */
  function RemoveAt<T>(s: seq<T>, index: int): (r: seq<T>)
    requires 0 <= index < |s|
    ensures |r| == |s| - 1
    ensures forall j :: 0 <= j < index ==> r[j] == s[j]
    ensures forall j :: index <= j < |r| ==> r[j] == s[j + 1]
    ensures multiset(r) + multiset{s[index]} == multiset(s)
  {
    assert s == s[..index] + [s[index]] + s[index + 1..];
    s[..index] + s[index + 1..]
  }

  class MultiChipControl<T> {
    /** The `JSON.stringify` serialisation the control compares items by. */
    const key: T -> string
    /** `_chips`: the selected chips in insertion order. */
    var chips: seq<T>
    /** The suggestions, supplied by the host. */
    var options: seq<T>
    var threshold: int
    var placeholder: string
    /** Whether the suggestion panel is shown. */
    var isOptions: bool
    var visibilityOptionControl: string
    /** The text in the search box. */
    var box: string
    /** The query of the live debounce timer, if one is set. */
    var pending: Option<string>
    /** Values passed to the registered `onChange`. */
    var changeLog: seq<seq<T>>
    /** Values emitted by `onQuery`, `onAdd` and `onRemove`. */
    var queryLog: seq<string>
    var addLog: seq<T>
    var removeLog: seq<T>

    constructor (key: T -> string)
      ensures this.key == key && chips == [] && options == []
      ensures threshold == 2 && placeholder == "Search here"
      ensures !isOptions && visibilityOptionControl == CLOSED_GLYPH && pending == None
      ensures box == "" && changeLog == [] && queryLog == [] && addLog == [] && removeLog == []
    {
      this.key := key;
      chips := [];
      options := [];
      threshold := 2;
      placeholder := "Search here";
      isOptions := false;
      visibilityOptionControl := CLOSED_GLYPH;
      box := "";
      pending := None;
      changeLog, queryLog, addLog, removeLog := [], [], [], [];
    }

    /** `optionChanged`: `Array.filter` over the suggestions with `filterOptions` as its test. */
    method OptionChanged()
      modifies this`options
      ensures options == FilteredOptions(key, chips, old(options))
    {
      var all := options;
      var kept: seq<T> := [];
      var i := 0;
      while i < |all|
        invariant 0 <= i <= |all|
        invariant kept == FilteredOptions(key, chips, all[..i])
      {
        assert all[..i + 1][..i] == all[..i];
        var keep := FilterOptions(key, chips, all[i]);
        assert keep == NotSelected(key, chips)(all[i]);
        if keep {
          kept := kept + [all[i]];
        }
        i := i + 1;
      }
      assert all[..i] == all;
      options := kept;
    }

    /** The `chips` setter: stores the list and notifies `onChange`. */
    method SetChips(val: seq<T>)
      modifies this`chips, this`changeLog
      ensures chips == val
      ensures changeLog == old(changeLog) + [val]
    {
      chips := val;
      changeLog := changeLog + [chips];
    }

    /** `writeValue`: an `undefined` value is ignored, any other goes through the setter. */
    method WriteValue(value: Option<seq<T>>)
      modifies this`chips, this`changeLog
      ensures value.None? ==> chips == old(chips) && changeLog == old(changeLog)
      ensures value.Some? ==> chips == value.value && changeLog == old(changeLog) + [value.value]
    {
      if value.Some? {
        SetChips(value.value);
      }
    }

    /** `deleteChip`: emits `chips[index]` to `onRemove`, then splices it out without going through the setter. */
    method DeleteChip(index: int)
      requires 0 <= index < |chips|
      modifies this`chips, this`removeLog
      ensures removeLog == old(removeLog) + [old(chips)[index]]
      ensures chips == RemoveAt(old(chips), index)
    {
      removeLog := removeLog + [chips[index]];
      chips := chips[..index] + chips[index + 1..];
    }

    /** `onQueryTriggered`: hides the panel and replaces any live timer by one for `query`. */
    method OnQueryTriggered(query: string)
      modifies this`isOptions, this`pending
      ensures !isOptions && pending == Some(query)
    {
      isOptions := false;
      pending := Some(query);
    }

    /**
     * The live timer elapses: the pending query is emitted and the panel shown
     * when the query is longer than the threshold at that moment; a timer
     * that is not set does nothing.
     */
    method FireTimer()
      modifies this`pending, this`queryLog, this`isOptions
      ensures pending == None
      ensures old(pending).Some? && QueryEmits(old(pending).value, threshold) ==>
                queryLog == old(queryLog) + [old(pending).value] && isOptions
      ensures !(old(pending).Some? && QueryEmits(old(pending).value, threshold)) ==>
                queryLog == old(queryLog) && isOptions == old(isOptions)
    {
      if pending.Some? {
        var query := pending.value;
        pending := None;
        if Utf16Length(query) > threshold {
          queryLog := queryLog + [query];
          isOptions := true;
        }
      }
    }

    /** `toggleOptions`: flips the panel and shows the matching glyph. */
    method ToggleOptions()
      modifies this`isOptions, this`visibilityOptionControl
      ensures isOptions == !old(isOptions)
      ensures visibilityOptionControl == Glyph(isOptions)
    {
      isOptions := !isOptions;
      visibilityOptionControl := if isOptions then OPEN_GLYPH else CLOSED_GLYPH;
    }

    /**
     * `addItem`: clears the search box, pushes `options[index]` onto the chips
     * (without the setter, and whether or not it is already there), emits it
     * to `onAdd` and hides the panel.
     */
    method AddItem(index: int)
      requires 0 <= index < |options|
      modifies this`box, this`chips, this`addLog, this`isOptions
      ensures box == ""
      ensures chips == old(chips) + [options[index]]
      ensures addLog == old(addLog) + [options[index]]
      ensures !isOptions
    {
      box := "";
      var option := options[index];
      chips := chips + [option];
      addLog := addLog + [option];
      isOptions := false;
    }
  }

  /**
   * Typing several queries with no timer elapsing in between and then letting
   * the timer elapse emits at most the last query, and only when it is long
   * enough.
   */
  method TypeThenWait<T>(c: MultiChipControl<T>, queries: seq<string>)
    requires queries != []
    modifies c
    ensures c.pending == None
    ensures QueryEmits(queries[|queries| - 1], c.threshold) ==>
              c.queryLog == old(c.queryLog) + [queries[|queries| - 1]] && c.isOptions
    ensures !QueryEmits(queries[|queries| - 1], c.threshold) ==>
              c.queryLog == old(c.queryLog) && !c.isOptions
  {
    var k := 0;
    while k < |queries|
      invariant 0 <= k <= |queries|
      invariant c.queryLog == old(c.queryLog) && c.threshold == old(c.threshold)
      invariant k > 0 ==> c.pending == Some(queries[k - 1]) && !c.isOptions
    {
      c.OnQueryTriggered(queries[k]);
      k := k + 1;
    }
    c.FireTimer();
  }

  /** Adding "Anand" from the suggestions gives one chip, emits it to `onAdd` and hides the panel. */
  method AddScenario() returns (chips: seq<string>, added: seq<string>, isOptions: bool)
    ensures chips == ["Anand"] && added == ["Anand"] && !isOptions
  {
    var c := new MultiChipControl<string>(StringKey);
    c.options := ["Anand"];
    c.AddItem(0);
    chips, added, isOptions := c.chips, c.addLog, c.isOptions;
  }

  /** `addItem` itself does not reject a duplicate: adding a chip that is already selected appends it again. */
  method DuplicateAddScenario() returns (chips: seq<string>)
    ensures chips == ["Anand", "Anand"]
  {
    var c := new MultiChipControl<string>(StringKey);
    c.SetChips(["Anand"]);
    c.options := ["Anand"];
    c.AddItem(0);
    chips := c.chips;
  }

  /** Deleting the only chip "Anand" emits it to `onRemove` and empties the list. */
  method DeleteScenario() returns (chips: seq<string>, removed: seq<string>)
    ensures chips == [] && removed == ["Anand"]
  {
    var c := new MultiChipControl<string>(StringKey);
    c.SetChips(["Anand"]);
    c.DeleteChip(0);
    chips, removed := c.chips, c.removeLog;
  }

  /** Selection {A, B} and suggestions [A, B, C, D] leave [C, D]. */
  method FilterScenario() returns (options: seq<string>)
    ensures options == ["C", "D"]
  {
    var c := new MultiChipControl<string>(StringKey);
    c.SetChips(["A", "B"]);
    c.options := ["A", "B", "C", "D"];
    c.OptionChanged();
    options := c.options;
    ghost var keep := NotSelected(StringKey, ["A", "B"]);
    assert !keep("A") by { assert StringKey(["A", "B"][0]) == StringKey("A"); }
    assert !keep("B") by { assert StringKey(["A", "B"][1]) == StringKey("B"); }
    assert keep("C") && keep("D");
    ghost var all := ["A", "B", "C", "D"];
    assert all[..3] == ["A", "B", "C"] && all[..3][..2] == ["A", "B"] && all[..3][..2][..1] == ["A"];
    assert Filter(keep, ["A"]) == [];
    assert Filter(keep, ["A", "B"]) == [];
    assert Filter(keep, ["A", "B", "C"]) == ["C"];
    assert Filter(keep, all) == ["C", "D"];
  }

  /** With threshold 2, "q" emits nothing when its timer elapses and "query" emits once. */
  method ThresholdScenario() returns (afterShort: seq<string>, afterLong: seq<string>)
    ensures afterShort == [] && afterLong == ["query"]
  {
    var c := new MultiChipControl<string>(StringKey);
    c.OnQueryTriggered("q");
    c.FireTimer();
    afterShort := c.queryLog;
    c.OnQueryTriggered("query");
    c.FireTimer();
    afterLong := c.queryLog;
  }
}
