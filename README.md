# ngChips chip controls and infinite scroller in Dafny

This project models the logic of the ngChips widget library:

- the single-select chip control `ChipComponent` (module `Chip`);
- the multi-select chip control `MultiChipsComponent` (module `MultiChip`);
- the infinite-scroll directive `InfiniteScrollerDirective` (module `InfiniteScroll`);
- `Common`, the definitions they share: an `Option` for JavaScript's `undefined`, `Array.prototype.filter` with its properties, the panel glyphs and the query-length rule.

Each control is a class whose fields are the component's own: the selection (`chip` or `chips`), `options`, `threshold`, `isOptions`, `visibilityOptionControl` and `isChip`. Around them:

- The search box is its text.
- Every event emitter, and the registered `onChange`, is a log of what it was given.
- Items are compared by their `JSON.stringify` text. That serialisation is the control's `key` function.
- The options differ of `ngDoCheck` is an explicit call to `OptionChanged`.
- The debounce timer is a pending query. `OnQueryTriggered` replaces it, and `FireTimer` makes the timer elapse. The length test reads the threshold when the timer elapses, just as the timeout callback reads `this.threshold`. The length is JavaScript's: UTF-16 code units, so a character outside the Basic Multilingual Plane counts twice.
- The single-select control keeps `isChip` equal to whether a chip is selected. Every method requires and re-establishes this invariant, and the setter restores it from any state.
- The directive's rxjs pipeline is a state machine. It keeps the previous scroll sample and counts calls to the callback. Its ghost history of samples ties that count to `ScrollCallbacks`, which counts the qualifying consecutive pairs.

Notes on the model:

- The options glyph changes only in `toggleOptions`. `onQueryTriggered`, `addItem` and an elapsing timer all set `isOptions` without touching the glyph. So the model does not claim that the glyph always matches `isOptions`. It claims this only right after `ToggleOptions`.
- The directive declares `scrollPercent` with no default value. An unset percentage makes the ratio test compare against NaN, and such a test never passes. The chip component supplies 80 itself.
- The ratio test `(sT + cH) / sH > scrollPercent / 100` is cross-multiplied into integers. For a scroll height of 0 the division in the directive yields an infinity or NaN, so the test passes exactly when `sT + cH > 0`. `ExpectedPercentIsRatio` proves that, for a non-zero height, the integer test agrees with real division.

## Model

| member | source | states |
|---|---|---|
| Common.Glyph | src/app/chip/chip.component.ts:208 | the stored glyph is "&#8911;" exactly when the panel is open and "&#8910;" exactly when it is closed |
| Common.Utf16Length | src/app/chip/chip.component.ts:196 | JavaScript's `length` counts at least one and at most two code units per character |
| Common.Utf16LengthOfBmp | src/app/chip/chip.component.ts:196 | for a string of Basic Multilingual Plane characters, `length` is the number of characters |
| Common.EmojiPairLength | src/app/multi-chip/multi-chip.component.ts:170 | two emoji have `length` 4 and so pass the default threshold of 2 |
| Common.Filter | src/app/chip/chip.component.ts:129 | `Array.filter` keeps no more elements than it was given, and every element it keeps passes the test |
| Common.FilterIsSubsequence | src/app/multi-chip/multi-chip.component.ts:101 | the filtered list is a subsequence of the input, so the original order is kept |
| Common.FilterCounts | src/app/multi-chip/multi-chip.component.ts:101 | a value that passes the test keeps every occurrence it had; a value that fails keeps none |
| Common.FilterMembership | src/app/multi-chip/multi-chip.component.ts:101 | a value is in the filtered list iff it is in the input and passes the test |
| Common.FilterKeepsAll | src/app/chip/chip.component.ts:129 | when every element passes the test, filtering returns the list unchanged |
| Common.FilterIdempotent | src/app/chip/chip.component.ts:129 | filtering twice with the same test is the same as filtering once |
| Chip.FilterKeepsExactly | src/app/chip/chip.component.ts:127-136 | `optionChanged` keeps exactly the options whose key differs from the selected chip's key, in their original order, with all their occurrences |
| Chip.FilterDropsChip | src/app/chip/chip.component.ts:131-135 | after the filter, no suggestion shares its key with the selected chip |
| Chip.FilterTwiceIsOnce | src/app/chip/chip.component.ts:127-136 | filtering the suggestions twice against one chip equals filtering them once |
| Chip.FilterWithoutChip | src/app/chip/chip.component.ts:128-134 | with no chip selected, the filter removes no option whose `JSON.stringify` is a string (every option of the model) |
| Chip.ChipControl.constructor | src/app/chip/chip.component.ts:71-103 | the initial state: no chip, `isChip` false, threshold 2, placeholder "Search here", scroll percent 80, panel closed with the closed glyph, no timer set |
| Chip.ChipControl.OnScrollTrigger | src/app/chip/chip.component.ts:118-120 | the scroll callback emits `true` on `onScroll` and changes nothing else |
| Chip.ChipControl.OptionChanged | src/app/chip/chip.component.ts:127-136 | the suggestions become the filtered list of the previous suggestions; nothing else changes |
| Chip.ChipControl.SetChip | src/app/chip/chip.component.ts:151-155 | the setter stores the value, sets `isChip` iff the value is defined, and passes the value to `onChange` |
| Chip.ChipControl.WriteValue | src/app/chip/chip.component.ts:158-161 | `writeValue(v)` ends in the same state as the setter given `v` |
| Chip.ChipControl.DeleteChip | src/app/chip/chip.component.ts:175-178 | logs the previous chip to `onRemove`, then leaves no chip, with `isChip` false and `onChange` given `undefined` |
| Chip.ChipControl.OnQueryTriggered | src/app/chip/chip.component.ts:188-195 | hides the panel and replaces any pending query by the new one, so at most one query is pending |
| Chip.ChipControl.FireTimer | src/app/chip/chip.component.ts:195-200 | when the timer elapses, the pending query is logged to `onQuery` and the panel opens iff its `length` in UTF-16 code units is strictly greater than the threshold; otherwise nothing but the timer changes |
| Chip.ChipControl.ToggleOptions | src/app/chip/chip.component.ts:206-209 | negates `isOptions` and stores the glyph that matches the new value |
| Chip.ChipControl.AddItem | src/app/chip/chip.component.ts:218-225 | for a valid index: the search box is cleared, the chip becomes `options[i]`, `onChange` and `onAdd` are given `options[i]`, the panel is hidden, and `options` is unchanged |
| Chip.ToggleTwice | src/app/chip/chip.component.ts:206-209 | toggling twice restores `isOptions`, and the glyph matches it |
| Chip.TypeThenWait | src/app/chip/chip.component.ts:188-200 | after several queries with no timer elapsing in between, the timer emits only the last query, and only if its UTF-16 `length` is greater than the threshold |
| Chip.AddScenario | src/app/chip/chip.component.spec.ts:59-73 | adding "Anand" from the suggestions makes it the chip, emits it on `onAdd`, hides the panel and clears the box |
| Chip.DeleteScenario | src/app/chip/chip.component.spec.ts:75-87 | deleting the chip "Anand" emits it on `onRemove` and leaves no chip |
| Chip.ThresholdScenario | src/app/chip/chip.component.spec.ts:89-103 | with threshold 2, "q" emits nothing and "query" emits once |
| Chip.EmojiQueryScenario | src/app/chip/chip.component.ts:196-198 | two emoji are four UTF-16 code units, so at threshold 2 they are emitted on `onQuery` and the panel opens |
| MultiChip.FilterOptions | src/app/multi-chip/multi-chip.component.ts:103-109 | the chip loop keeps an option iff no selected chip has the same key |
| MultiChip.FilterKeepsExactly | src/app/multi-chip/multi-chip.component.ts:99-110 | `optionChanged` keeps exactly the options whose key matches no chip's key, in their original order, with all their occurrences |
| MultiChip.FilterDropsEveryChip | src/app/multi-chip/multi-chip.component.ts:99-110 | right after filtering, no suggestion shares its key with any chip |
| MultiChip.FilterTwiceIsOnce | src/app/multi-chip/multi-chip.component.ts:101 | filtering twice against the same chips equals filtering once |
| MultiChip.RemoveAt | src/app/multi-chip/multi-chip.component.ts:151 | `splice(i, 1)` leaves one element fewer: the elements before `i` stay put, the ones after shift left by one, and the multiset loses exactly `s[i]` |
| MultiChip.MultiChipControl.constructor | src/app/multi-chip/multi-chip.component.ts:58-82 | the initial state: no chips, threshold 2, placeholder "Search here", panel closed with the closed glyph, no timer set |
| MultiChip.MultiChipControl.OptionChanged | src/app/multi-chip/multi-chip.component.ts:99-110 | the `Array.filter` loop, which calls `filterOptions` on each suggestion, leaves exactly the filtered list of the previous suggestions |
| MultiChip.MultiChipControl.SetChips | src/app/multi-chip/multi-chip.component.ts:125-128 | the setter stores the list and passes it to `onChange` |
| MultiChip.MultiChipControl.WriteValue | src/app/multi-chip/multi-chip.component.ts:131-134 | `writeValue(undefined)` changes nothing and calls no `onChange`; any other value replaces the chips and is passed to `onChange` |
| MultiChip.MultiChipControl.DeleteChip | src/app/multi-chip/multi-chip.component.ts:149-152 | for a valid index: logs `chips[i]` to `onRemove`, then removes exactly position `i`; `onChange` is not called |
| MultiChip.MultiChipControl.OnQueryTriggered | src/app/multi-chip/multi-chip.component.ts:162-169 | hides the panel and replaces any pending query by the new one |
| MultiChip.MultiChipControl.FireTimer | src/app/multi-chip/multi-chip.component.ts:169-174 | when the timer elapses, the pending query is logged to `onQuery` and the panel opens iff its `length` in UTF-16 code units is strictly greater than the threshold; otherwise nothing but the timer changes |
| MultiChip.MultiChipControl.ToggleOptions | src/app/multi-chip/multi-chip.component.ts:180-183 | flips `isOptions` and stores the glyph that matches the new value |
| MultiChip.MultiChipControl.AddItem | src/app/multi-chip/multi-chip.component.ts:192-199 | for a valid index: clears the box, appends `options[i]` to the end of the chips with the earlier chips unchanged, logs it to `onAdd` and hides the panel; `onChange` is not called |
| MultiChip.TypeThenWait | src/app/multi-chip/multi-chip.component.ts:162-175 | after several queries with no timer elapsing in between, the timer emits only the last query, and only if its UTF-16 `length` is greater than the threshold |
| MultiChip.AddScenario | src/app/multi-chip/multi-chip.component.spec.ts:59-73 | adding "Anand" gives exactly one chip, emits it on `onAdd` and hides the panel |
| MultiChip.DuplicateAddScenario | src/app/multi-chip/multi-chip.component.ts:195-196 | `addItem` does not reject a chip that is already selected; adding it again appends a second copy |
| MultiChip.DeleteScenario | src/app/multi-chip/multi-chip.component.spec.ts:75-87 | deleting the only chip "Anand" emits it on `onRemove` and empties the list |
| MultiChip.FilterScenario | src/app/multi-chip/multi-chip.component.ts:99-110 | with chips A and B, the suggestions [A, B, C, D] become [C, D] |
| MultiChip.ThresholdScenario | src/app/multi-chip/multi-chip.component.spec.ts:89-103 | with threshold 2, "q" emits nothing and "query" emits once |
| InfiniteScroll.ExpectedPercentIsRatio | src/app/infinitescroll.directive.ts:118-120 | for a non-zero scroll height, the integer test agrees with `(sT + cH) / sH > scrollPercent / 100` in real arithmetic |
| InfiniteScroll.ScrollCallbacks | src/app/infinitescroll.directive.ts:90-102 | a run of samples makes at most one call per consecutive pair; a single sample makes none |
| InfiniteScroll.Pairwise | src/app/infinitescroll.directive.ts:97 | `pairwise` gives one pair fewer than there are samples, and pair `i` is sample `i` with sample `i + 1` |
| InfiniteScroll.CallbacksAreQualifyingPairs | src/app/infinitescroll.directive.ts:90-114 | the number of calls equals the number of pairs from `pairwise` that pass the direction and threshold filter, with no de-duplication |
| InfiniteScroll.NoCallbackWithoutScrollingDown | src/app/infinitescroll.directive.ts:98-102 | if the scroll top never strictly grows between samples, no call is made, whatever the ratios |
| InfiniteScroll.EveryQualifyingPairCalls | src/app/infinitescroll.directive.ts:98-114 | if every consecutive pair qualifies, every pair makes a call |
| InfiniteScroll.DefaultPairDoesNotQualify | src/app/infinitescroll.directive.ts:48-52 | the zero sample pair used for the up-front call would fail the filter, so that call bypasses it |
| InfiniteScroll.ScrollingDownPastThresholdCalls | src/app/infinitescroll.directive.ts:98-120 | at 80 percent, moving from top 700 to top 820 in a box of height 1000 with a view of height 200 makes one call |
| InfiniteScroll.ScrollingUpDoesNotCall | src/app/infinitescroll.directive.ts:98-102 | moving up from top 820 to top 700 makes no call, even though the ratio is past 80 percent |
| InfiniteScroll.InfiniteScroller.constructor | src/app/infinitescroll.directive.ts:58-72 | the directive starts with its inputs set, not listening, with no previous sample and no calls |
| InfiniteScroll.InfiniteScroller.AfterViewInit | src/app/infinitescroll.directive.ts:75-82 | with no callback nothing is set up; with one, the stream listens, and exactly one call is made up front iff `immediateCallback` is set |
| InfiniteScroll.InfiniteScroller.OnScroll | src/app/infinitescroll.directive.ts:90-114 | an event nobody listens to changes nothing; otherwise the new sample becomes the previous one, and the callback is called once iff the pair (previous, new) qualifies; the count stays the up-front call plus `ScrollCallbacks` of all samples seen |
| InfiniteScroll.NoCallbackNoCalls | src/app/infinitescroll.directive.ts:75-82 | without a callback, no run of scroll events ever calls it |
| InfiniteScroll.CallbackCount | src/app/infinitescroll.directive.ts:106-114 | with a callback, a run of events makes one call per qualifying consecutive pair, plus one if `immediateCallback` is set |

## Left out

- Angular plumbing is not modelled. This covers the decorators, dependency injection, the `NG_VALUE_ACCESSOR` provider, `registerOnChange` and `registerOnTouched`, and the `KeyValueDiffers` watcher in `ngOnInit`/`ngDoCheck`. A replaced suggestion list is modelled as an explicit `OptionChanged` call. The registered `onChange` is modelled as a log.
- The host writing `_chip`, `_chips` or `isChip` directly, as an input binding can, is not modelled. Such a write bypasses the setter, so `isChip` could then disagree with the chip.
- `window.setTimeout`, `clearTimeout` and the 1000 ms delay are not modelled. The timer is a pending query, and `FireTimer` stands for the delay elapsing.
- `JSON.stringify` is abstracted to a key function that always yields a string. Its key order, its treatment of `undefined` inside records, and cycles are not modelled.
- An option or chip whose `JSON.stringify` is `undefined` (the value `undefined` itself, or a function) is not modelled. With no chip selected, the single-select filter compares `undefined == undefined` and drops such an option, so `[undefined, "a"]` becomes `["a"]`.
- Strings holding a lone UTF-16 surrogate are not modelled, since a Dafny character is a Unicode scalar value. Every other string's `length` is modelled exactly by `Utf16Length`.
- A `null` chip is not modelled. The loose `!=` in the setter treats `null` as absent, but `JSON.stringify(null)` is the text "null". The multi-select `writeValue` uses a strict test, so `writeValue(null)` would store `null`; only `undefined` is modelled, as `None`.
- Chip.ChipControl.AddItem, MultiChip.MultiChipControl.AddItem and MultiChip.MultiChipControl.DeleteChip require a valid index. The source reads `undefined` for an out-of-range index, and `splice` with a negative index removes from the end; neither case is modelled.
- Aliasing is not modelled. `push` and `splice` change the array object that was given to the setter and to `onChange`, so the host sees those changes. The model's chips are a value.
- `box.value = null` is modelled as an empty search box.
- The rxjs machinery is not modelled. This covers `Observable.fromEvent`, the subscription, and the `console.log` error handler. Only the per-pair decision and the call count are modelled.
- DOM reads (`scrollHeight`, `scrollTop`, `clientHeight`) are not modelled. Samples are given as parameters.
- Samples are integers, and the ratio test is exact. Floating-point rounding at the boundary is not captured.
- The directive's inputs are fixed at construction. In the source the threshold test reads `this.scrollPercent` afresh on each event, so a later change to the input would apply to later events.
- Templates, CSS, the demo host `src/app/app.component.ts` and the module wiring `src/app/app.module.ts` are not modelled. They hold no logic of the core.
