/**
 * The single-select chip control (`ChipComponent`): at most one selected
 * chip, a suggestion list filtered against it, a debounced search query and
 * the options panel toggle.
 *
 * Items are compared the way the control compares them, by their
 * `JSON.stringify` text; here that serialisation is the control's `key`
 * function. Event emitters are output logs, the search box is its text, and
 * the debounce timer is a pending query plus an explicit `FireTimer` step.
 */
module Chip {
  import opened Common

  /**
   * `filterOptions`: an option is kept unless its key equals the selected
   * chip's key. Every item here serialises to a string; an absent chip
   * serialises to `undefined`, which equals no string, so then every option
   * is kept. (An option that itself serialises to `undefined` would be
   * dropped by the source in that case; such items are not modelled.)
   */
  predicate KeepOption<T>(key: T -> string, chip: Option<T>, obj: T)
  {
    chip.None? || key(chip.value) != key(obj)
  }

  function Keep<T>(key: T -> string, chip: Option<T>): T -> bool
  {
    obj => KeepOption(key, chip, obj)
  }

  /** The suggestion list `optionChanged` leaves behind. */
  function FilteredOptions<T>(key: T -> string, chip: Option<T>, options: seq<T>): seq<T>
  {
    Filter(Keep(key, chip), options)
  }

  /**
   * The filter keeps exactly the options whose key differs from the chip's:
   * the result is a subsequence of the input, every kept value keeps all of
   * its occurrences and every dropped value loses all of them.
   */
  lemma FilterKeepsExactly<T>(key: T -> string, chip: Option<T>, options: seq<T>)
    ensures IsSubsequence(FilteredOptions(key, chip, options), options)
    ensures forall x :: multiset(FilteredOptions(key, chip, options))[x] ==
                        if KeepOption(key, chip, x) then multiset(options)[x] else 0
  {
    FilterIsSubsequence(Keep(key, chip), options);
    FilterCounts(Keep(key, chip), options);
  }

  /** After filtering no suggestion shares its key with the selected chip. */
  lemma FilterDropsChip<T>(key: T -> string, chip: Option<T>, options: seq<T>)
    requires chip.Some?
    ensures forall i :: 0 <= i < |FilteredOptions(key, chip, options)| ==>
              key(FilteredOptions(key, chip, options)[i]) != key(chip.value)
  {
  }

  /** Filtering twice against the same chip is filtering once. */
  lemma FilterTwiceIsOnce<T>(key: T -> string, chip: Option<T>, options: seq<T>)
    ensures FilteredOptions(key, chip, FilteredOptions(key, chip, options)) ==
            FilteredOptions(key, chip, options)
  {
    FilterIdempotent(Keep(key, chip), options);
  }

  /** With no chip selected the filter removes no option whose serialisation is a string, which is every option here. */
  lemma FilterWithoutChip<T>(key: T -> string, options: seq<T>)
    ensures FilteredOptions(key, None, options) == options
  {
    FilterKeepsAll(Keep(key, None), options);
  }

  class ChipControl<T> {
    /** The `JSON.stringify` serialisation the control compares items by. */
    const key: T -> string
    /** `_chip`: the selected chip, `None` while nothing is selected. */
    var chip: Option<T>
    /** Whether a chip is shown. */
    var isChip: bool
    /** The suggestions, supplied by the host. */
    var options: seq<T>
    var threshold: int
    var placeholder: string
    var scrollPercent: int
    /** Whether the suggestion panel is shown. */
    var isOptions: bool
    var visibilityOptionControl: string
    /** The text in the search box. */
    var box: string
    /** The query of the live debounce timer, if one is set. */
    var pending: Option<string>
    /** Values passed to the registered `onChange`. */
    var changeLog: seq<Option<T>>
    /** Values emitted by `onQuery`, `onAdd`, `onRemove` and `onScroll`. */
    var queryLog: seq<string>
    var addLog: seq<T>
    var removeLog: seq<Option<T>>
    var scrollLog: seq<bool>

    /** The chip is shown exactly when one is selected. */
    ghost predicate Valid()
      reads this
    {
      isChip == chip.Some?
    }

    constructor (key: T -> string)
      ensures Valid()
      ensures this.key == key && chip == None && !isChip && options == []
      ensures threshold == 2 && placeholder == "Search here" && scrollPercent == 80
      ensures !isOptions && visibilityOptionControl == CLOSED_GLYPH && pending == None
      ensures box == "" && changeLog == [] && queryLog == [] && addLog == [] && removeLog == [] && scrollLog == []
    {
      this.key := key;
      chip := None;
      isChip := false;
      options := [];
      threshold := 2;
      placeholder := "Search here";
      scrollPercent := 80;
      isOptions := false;
      visibilityOptionControl := CLOSED_GLYPH;
      box := "";
      pending := None;
      changeLog, queryLog, addLog, removeLog, scrollLog := [], [], [], [], [];
    }

    /** `onScrollTrigger`: the scroll directive's callback, which emits `onScroll(true)`. */
    method OnScrollTrigger()
      requires Valid()
      modifies this`scrollLog
      ensures Valid()
      ensures scrollLog == old(scrollLog) + [true]
    {
      scrollLog := scrollLog + [true];
    }

    /** `optionChanged`, run whenever the host replaces the suggestion list. */
    method OptionChanged()
      requires Valid()
      modifies this`options
      ensures Valid()
      ensures options == FilteredOptions(key, chip, old(options))
    {
      options := FilteredOptions(key, chip, options);
    }

    /** The `chip` setter: stores the value, refreshes `isChip` and notifies `onChange`; it restores `Valid()` from any state. */
    method SetChip(val: Option<T>)
      modifies this`chip, this`isChip, this`changeLog
      ensures Valid()
      ensures chip == val && isChip == val.Some?
      ensures changeLog == old(changeLog) + [val]
    {
      chip := val;
      isChip := chip.Some?;
      changeLog := changeLog + [chip];
    }

    /** `writeValue`: its own `isChip` update is overwritten by the setter, so it ends as `SetChip(value)` does. */
    method WriteValue(value: Option<T>)
      requires Valid()
      modifies this`chip, this`isChip, this`changeLog
      ensures Valid()
      ensures chip == value && isChip == value.Some?
      ensures changeLog == old(changeLog) + [value]
    {
      isChip := chip.Some?;
      SetChip(value);
    }

    /** `deleteChip`: emits the current chip to `onRemove`, then clears it through the setter. */
    method DeleteChip()
      requires Valid()
      modifies this`chip, this`isChip, this`changeLog, this`removeLog
      ensures Valid()
      ensures removeLog == old(removeLog) + [old(chip)]
      ensures chip == None && !isChip
      ensures changeLog == old(changeLog) + [None]
    {
      removeLog := removeLog + [chip];
      SetChip(None);
    }

    /** `onQueryTriggered`: hides the panel and replaces any live timer by one for `query`. */
    method OnQueryTriggered(query: string)
      requires Valid()
      modifies this`isOptions, this`pending
      ensures Valid()
      ensures !isOptions && pending == Some(query)
    {
      isOptions := false;
      pending := Some(query);
    }

    /**
     * The live timer elapses: the pending query is emitted and the panel shown
     * when the query is longer than the threshold at that moment; a timer
     * that is not set does nothing.
     */
    method FireTimer()
      requires Valid()
      modifies this`pending, this`queryLog, this`isOptions
      ensures Valid()
      ensures pending == None
      ensures old(pending).Some? && QueryEmits(old(pending).value, threshold) ==>
                queryLog == old(queryLog) + [old(pending).value] && isOptions
      ensures !(old(pending).Some? && QueryEmits(old(pending).value, threshold)) ==>
                queryLog == old(queryLog) && isOptions == old(isOptions)
    {
      if pending.Some? {
        var query := pending.value;
        pending := None;
        if Utf16Length(query) > threshold {
          queryLog := queryLog + [query];
          isOptions := true;
        }
      }
    }

    /** `toggleOptions`: flips the panel and shows the matching glyph. */
    method ToggleOptions()
      requires Valid()
      modifies this`isOptions, this`visibilityOptionControl
      ensures Valid()
      ensures isOptions == !old(isOptions)
      ensures visibilityOptionControl == Glyph(isOptions)
    {
      isOptions := !isOptions;
      visibilityOptionControl := if isOptions then OPEN_GLYPH else CLOSED_GLYPH;
    }

    /** `addItem`: clears the search box, selects `options[index]` through the setter, emits it to `onAdd` and hides the panel. */
    method AddItem(index: int)
      requires Valid()
      requires 0 <= index < |options|
      modifies this`box, this`chip, this`isChip, this`changeLog, this`addLog, this`isOptions
      ensures Valid()
      ensures box == ""
      ensures chip == Some(options[index]) && isChip
      ensures changeLog == old(changeLog) + [Some(options[index])]
      ensures addLog == old(addLog) + [options[index]]
      ensures !isOptions
    {
      box := "";
      var option := options[index];
      SetChip(Some(option));
      addLog := addLog + [option];
      isOptions := false;
    }
  }

  /** Toggling the panel twice restores its visibility and glyph. */
  method ToggleTwice<T>(c: ChipControl<T>)
    requires c.Valid()
    modifies c
    ensures c.Valid()
    ensures c.isOptions == old(c.isOptions)
    ensures c.visibilityOptionControl == Glyph(c.isOptions)
  {
    c.ToggleOptions();
    c.ToggleOptions();
  }

  /**
   * Typing several queries with no timer elapsing in between and then letting
   * the timer elapse emits at most the last query, and only when it is long
   * enough.
   */
  method TypeThenWait<T>(c: ChipControl<T>, queries: seq<string>)
    requires c.Valid() && queries != []
    modifies c
    ensures c.Valid()
    ensures c.pending == None
    ensures QueryEmits(queries[|queries| - 1], c.threshold) ==>
              c.queryLog == old(c.queryLog) + [queries[|queries| - 1]] && c.isOptions
    ensures !QueryEmits(queries[|queries| - 1], c.threshold) ==>
              c.queryLog == old(c.queryLog) && !c.isOptions
  {
    var k := 0;
    while k < |queries|
      invariant 0 <= k <= |queries|
      invariant c.Valid()
      invariant c.queryLog == old(c.queryLog) && c.threshold == old(c.threshold)
      invariant k > 0 ==> c.pending == Some(queries[k - 1]) && !c.isOptions
    {
      c.OnQueryTriggered(queries[k]);
      k := k + 1;
    }
    c.FireTimer();
  }

  /** Selecting "Anand" from the suggestions: it becomes the chip, is emitted to `onAdd` and the panel is hidden. */
  method AddScenario() returns (chip: Option<string>, added: seq<string>, isOptions: bool, box: string)
    ensures chip == Some("Anand") && added == ["Anand"] && !isOptions && box == ""
  {
    var c := new ChipControl<string>(StringKey);
    c.options := ["Anand"];
    c.AddItem(0);
    chip, added, isOptions, box := c.chip, c.addLog, c.isOptions, c.box;
  }

  /** Deleting the chip "Anand" emits it to `onRemove` and leaves no chip. */
  method DeleteScenario() returns (chip: Option<string>, removed: seq<Option<string>>)
    ensures chip == None && removed == [Some("Anand")]
  {
    var c := new ChipControl<string>(StringKey);
    c.SetChip(Some("Anand"));
    c.DeleteChip();
    chip, removed := c.chip, c.removeLog;
  }

  /** With threshold 2, "q" emits nothing when its timer elapses and "query" emits once. */
  method ThresholdScenario() returns (afterShort: seq<string>, afterLong: seq<string>)
    ensures afterShort == [] && afterLong == ["query"]
  {
    var c := new ChipControl<string>(StringKey);
    c.OnQueryTriggered("q");
    c.FireTimer();
    afterShort := c.queryLog;
    c.OnQueryTriggered("query");
    c.FireTimer();
    afterLong := c.queryLog;
  }

  /** `query.length` counts UTF-16 code units: two emoji are four units, longer than threshold 2, so they are emitted. */
  method EmojiQueryScenario() returns (emitted: seq<string>, isOptions: bool)
    ensures emitted == ["\U{1F600}\U{1F600}"] && isOptions
  {
    var c := new ChipControl<string>(StringKey);
    EmojiPairLength();
    c.OnQueryTriggered("\U{1F600}\U{1F600}");
    c.FireTimer();
    emitted, isOptions := c.queryLog, c.isOptions;
  }
}
