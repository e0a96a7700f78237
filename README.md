# Number Blocks applet — verified model of its two state machines

The Number Blocks applet is a single-page teaching app. It is an eight-page
slideshow about multiplying by 2. Almost all of it is markup and styling. Two
parts carry behaviour, and both live in `src/App.tsx`. This project models
those two parts in Dafny and proves what they promise.

- **The page navigator** (`NumberBlocksApp`) stores `currentPage` and `progress`.
  `progress` is the furthest page unlocked so far. The navigator has three
  transitions: Next, Previous, and a jump to the page of a clicked progress
  marker. Module `Navigation` (`navigation.dfy`) holds:
  - the fixed page list;
  - the pure step functions `Next`, `Previous` and `GoTo` on a `NavState` value;
  - the `Navigator` class, whose methods update its two fields in place and are
    proved equal to the step functions;
  - the marker classification (current, unlocked, locked) and the
    disabled conditions of the buttons.
  
  Lemmas prove three things about the navigator. The invariant
  `1 <= currentPage <= progress <= 8` holds over any session. `progress` never
  decreases. From the start of a session, `progress` is exactly the highest page
  that has been on screen.
- **The interactive slider page** (`Page5`) stores `sliderValue` in 0..10 and two
  button flags. An effect re-syncs the flags after every change of the value.
  Module `Slider` (`slider.dfy`) holds:
  - the `Page5` class with its handlers. The effect is an explicit method,
    `SyncButtonVisibility`, run after a handler;
  - `RenderBlocks`, a loop that appends one group of two "1" blocks per unit of
    the value. It is proved equal to the pure function `Groups`;
  - the derived views: the product shown in the equation, the fill percentage of
    the slider track, and which button is shown or disabled.

  A lemma proves that the number of unit blocks on screen equals the product in
  the equation. The page's Next button calls the navigator's `HandleNext`.

Three methods check short sessions by assertions:
- `WalkThroughScenario`: seven Next presses from the start, a press at page 8,
  and jumps to pages 3 and 8;
- `LockedJumpScenario`: a jump to the locked page 5 while progress is 2;
- `SliderScenario`: a drag to 4, move-to-max, and Next from page 5.

## Model

| member | source | states |
|---|---|---|
| `Navigation.PagesAreNumbered` | src/App.tsx:125-134 | the page list has 8 entries, and the entry at index i has id i + 1 |
| `Navigation.Next` | src/App.tsx:136-141 | Next keeps `1 <= currentPage <= progress <= 8` and never lowers progress; it is a no-op exactly on page 8; otherwise it moves one page forward and sets progress to the larger of the old progress and the new page |
| `Navigation.Previous` | src/App.tsx:143-147 | Previous keeps the invariant and leaves progress unchanged; it is a no-op exactly on page 1; otherwise it moves one page back |
| `Navigation.GoTo` | src/App.tsx:149-153 | a jump keeps the invariant and leaves progress unchanged; it lands on the requested page exactly when that page is at most progress, and otherwise leaves the current page alone |
| `Navigation.CurrentPage` | src/App.tsx:191-193 | under the invariant, `pages[currentPage - 1]` is an in-bounds entry of the page list whose id is the current page |
| `Navigation.MarkerOf` | src/App.tsx:169-175 | a marker looks current exactly on the current page; under the invariant it looks locked exactly when its id exceeds progress, and an unlocked marker is another page at most progress |
| `Navigation.MarkerDisabled` | src/App.tsx:176 | a disabled marker is never the current page, and clicking it leaves the state unchanged |
| `Navigation.Markers` | src/App.tsx:165-178 | there is one marker per page, and the i-th is the classification of page id i + 1 |
| `Navigation.PreviousDisabled` | src/App.tsx:228-238 | the Previous button is disabled exactly on the first page of the list |
| `Navigation.NextDisabled` | src/App.tsx:244-254 | the Next button is disabled exactly on the last page of the list |
| `Navigation.ExactlyOneCurrentMarker` | src/App.tsx:165-177 | among the 8 progress markers, the marker of the current page is in the "current" look, and no other marker is |
| `Navigation.MarkerLockedIffDisabled` | src/App.tsx:165-177 | a marker looks locked exactly when it is disabled (id > progress); clicking a disabled marker changes nothing; clicking an enabled marker moves to its page |
| `Navigation.DisabledIffNoOp` | src/App.tsx:198-219 | the Previous button is disabled exactly when Previous would change nothing, and the Next button exactly when Next would change nothing |
| `Navigation.RunKeepsInvariant` | src/App.tsx:122-153 | any sequence of Next, Previous and marker clicks keeps the invariant and never lowers progress |
| `Navigation.ProgressIsPeak` | src/App.tsx:136-153 | after any sequence of actions, progress equals the larger of the starting progress and the highest page shown during the sequence |
| `Navigation.ProgressIsFurthestPageReached` | src/App.tsx:122-123 | from the initial state (page 1, progress 1), progress is always the highest page reached so far, and the invariant holds |
| `Navigation.Navigator.constructor` | src/App.tsx:122-123 | a new navigator starts at page 1 with progress 1 |
| `Navigation.Navigator.HandleNext` | src/App.tsx:136-141 | the in-place update gives the new state `Next(old state)`, keeps the invariant and does not lower progress |
| `Navigation.Navigator.HandlePrevious` | src/App.tsx:143-147 | the in-place update gives the new state `Previous(old state)` and leaves progress unchanged |
| `Navigation.Navigator.GoToPage` | src/App.tsx:149-153 | the in-place update gives the new state `GoTo(old state, pageNum)` and leaves progress unchanged |
| `Navigation.Navigator.CurrentTitle` | src/App.tsx:188-193 | on every page except 5, the heading shows the title of the page list entry whose id is the current page; page 5 shows its own heading instead |
| `Slider.Product` | src/App.tsx:62 | the right side of `2 × v` is even, its half is v, and it lies in 0..20 for v in 0..10 |
| `Slider.FillPercent` | src/App.tsx:74-76 | the green part of the track lies in 0..100 percent; it is 100 exactly at the maximum and 0 exactly at 0 |
| `Slider.ShowsInstructionButton` | src/App.tsx:15-21 | the move-to-max button is shown exactly when the Next button is not |
| `Slider.ShowsNextButton` | src/App.tsx:15-21 | for a value in range, the Next button is shown exactly when the slider is at its right-most position |
| `Slider.MoveToMaxDisabled` | src/App.tsx:95 | for a value in range, the move-to-max button is disabled exactly when no position lies further right |
| `Slider.Groups` | src/App.tsx:33-44 | the specification of the blocks display: the groups for value n are exactly n in number |
| `Slider.ExactlyOneButton` | src/App.tsx:92-113 | for every value, exactly one of the move-to-max and Next buttons is shown, and a shown move-to-max button is never the disabled one |
| `Slider.GroupsShape` | src/App.tsx:33-44 | the groups for value n are exactly n; the i-th has key i and holds two unit blocks labelled 1 |
| `Slider.UnitsMatchProduct` | src/App.tsx:33-44 | the number of unit blocks on screen equals the product in the equation |
| `Slider.FreshPageView` | src/App.tsx:9-11 | at value 0 the product and the fill are 0, there are no blocks, and the move-to-max button is shown and enabled while Next is hidden |
| `Slider.Page5.constructor` | src/App.tsx:9-11 | a freshly mounted page has value 0, the move-to-max button shown and the Next button hidden, which agrees with the derived condition |
| `Slider.Page5.SyncButtonVisibility` | src/App.tsx:14-22 | the effect leaves the value alone and sets `showNextButton == (value == 10)` and `showInstructionButton == (value != 10)` |
| `Slider.Page5.HandleSliderChange` | src/App.tsx:24-27 | the handler stores the new value, which the range input bounds to 0..10 |
| `Slider.Page5.MoveSliderToMax` | src/App.tsx:29-31 | the handler leaves the value at 10 from any state, so repeating it changes nothing |
| `Slider.Page5.DragSlider` | src/App.tsx:14-27 | after the handler and the effect, the value is the dragged one; Next is shown exactly at 10 and move-to-max exactly below 10 |
| `Slider.Page5.ClickMoveToMax` | src/App.tsx:14-31 | after the handler and the effect, the value is 10, Next is shown and move-to-max is hidden |
| `Slider.Page5.RenderBlocks` | src/App.tsx:33-44 | the loop returns `Groups(value)`: exactly `value` groups, the i-th keyed i and made of two 1-blocks |
| `Slider.Page5.ClickNext` | src/App.tsx:106-113 | pressing the page's Next button performs the navigator's `Next`, which takes the navigator from page 5 to page 6 |

## Left out

- Markup, Tailwind class strings, gradients, animations and layout are presentation only. The marker looks and the disabled conditions are kept as values and predicates.
- React hook mechanics are not modelled: `useState` batching, `useEffect` scheduling and stale closures. Each handler is one sequential update. The effect is an explicit step (`SyncButtonVisibility`), and `DragSlider` and `ClickMoveToMax` run a handler followed by the effect.
- `parseInt` on the input's string is not modelled. The input is an integer already bounded to 0..10 by the range control, so `HandleSliderChange` requires that range. NaN from a malformed string cannot occur with a range input.
- Mounting and unmounting of `Page5` are not modelled as part of the navigator's state. Re-entering page 5 is modelled by constructing a fresh `Page5` object, which starts at value 0.
- Navigation.GoTo: requires `pageNum >= 1`. The source has no such check, but its only caller passes the page ids 1..8. Without the check, `currentPage` could reach 0 and `pages[currentPage - 1]` would be out of bounds.
- The unused icon imports and the placeholder bodies of pages 1–4 and 6–8 are not modelled. Of the placeholder pages only the titles are kept, in the page list.
