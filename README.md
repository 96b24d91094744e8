# react-calendar tile, flex layout and day cell, in Dafny

This project models three per-cell pieces of the react-calendar component
library and proves what they promise.

- **Tile** (`tile.dfy`, module `Tile`): a tile's derived-state cache.
  Before every render the tile recomputes two cached values, its extra
  class name and its content, and recomputes each one only when needed.
  A slice is recomputed when its source prop is a different reference
  from the last one seen, or when `activeStartDate` is a different
  instant. Otherwise the cached value is kept.
  - `Derive` is one step of this cache, as a function on values.
  - The class `TileEngine` holds the same state in fields and updates
    them in place with `Step`. `Step` is proved to agree with `Derive`.
  - `Run` folds `Derive` over a sequence of renders. The lemmas about it
    say when the cache is kept unchanged and that it is never stale with
    respect to its source and the active start date. It is not keyed on
    `date` or `view`: a render that changes only those keeps the values
    derived from the earlier args.
  - The disabled flag is modelled by `EvalDisabled`. It evaluates the
    min-bound check, the max-bound check and the optional predicate, in
    that order, and stops at the first that holds.
- **Flex** (`flex.dfy`, module `Flex`): the proportional flex layout.
  The container style is `display: flex`, the given direction and the
  wrap mode, with the caller's style on top. Every child gets a fresh
  slot style: basis `100/count` percent, no shrink, no grow, overflow
  hidden. Only the first child gets a left margin, and only when the
  offset is non-zero; that margin is `offset` slot widths.
- **Day cell** (`month_view_day.dfy`, module `MonthView`): the month
  view's day adapter. It builds the tile's class list: the caller's
  classes, then the base class, then a weekend modifier or null, then a
  neighbouring-month modifier or null. It fixes the view to `"month"`
  and the bound transforms to the start and end of the day. It labels
  the tile with the formatted day.

Modelling choices:
- Dates are integer millisecond timestamps (`Tile.Instant`). An absent
  date is `None`.
- JavaScript reference identity is modelled by an `id` token. A source
  is `Absent`, `Static(id, v)` or `Derived(id, f)`. Two sources are the
  same reference (`SameRef`) when they have the same shape and the same id.
- The date helpers are not part of this model: `getDayStart`,
  `getDayEnd`, `isWeekend`, `Date.getMonth` and the default formatters.
  They are passed in as function values (`MonthView.DateLib`). So are the
  caller's derivation functions, the `tileDisabled` predicate and the
  bound transforms.
- Style objects are maps from property name to value. A property set to
  null is still present, so "the style was replaced" can be stated as a
  fact about the map's keys.
- The layout component is sometimes described as merging the slot style
  onto the child's existing style. The code at src/Flex.tsx:40-48 assigns
  a fresh object after `...child.props`, so the old style is dropped.
  The model follows the code: `Flex.LayoutDiscardsChildStyles`.

## Model

| member | source | states |
|---|---|---|
| `Tile.DatesAreDifferent` | src/Tile.tsx:44-50 | false when both dates are absent, true when exactly one is present; when both are present, true iff the instants differ. In all, true iff the optional instants differ, so two objects for the same instant count as equal |
| `Tile.GetValue` | src/Tile.tsx:52-65 | a function source is applied to `{activeStartDate, date, view}`; a static source is returned as it is; an absent source gives an absent value |
| `Tile.Derive` | src/Tile.tsx:79-106 | after a step, the recorded className and content sources are the same references as the current props' sources, and the recorded active start date is the current one |
| `Tile.UnchangedInputsKeepCache` | src/Tile.tsx:86-103 | if neither source nor the active start instant changed, no derivation function is called and the state is left exactly as it was |
| `Tile.ActiveStartChangeRecomputesBoth` | src/Tile.tsx:86-99 | a different active start instant recomputes both slices from the new props, even when both sources are the same references; each derivation function is called iff its source is a function |
| `Tile.SlicesAreIndependent` | src/Tile.tsx:86-101 | with the active start instant unchanged, a slice whose source is the same reference keeps its source and value and calls nothing, whatever happens to the other slice |
| `Tile.RecomputeStoresSourceValue` | src/Tile.tsx:90-100 | a recomputed slice holds the function's result on the new props' args, or the static value, or absence |
| `Tile.FirstStepDerivesBoth` | src/Tile.tsx:77-101 | the first step from the all-absent state recomputes both slices from the first props |
| `Tile.DeriveIsIdempotent` | src/Tile.tsx:92-103 | a second step with the same props changes nothing |
| `Tile.RunKeepsCache` | src/Tile.tsx:79-106 | over any sequence of renders where no source changes reference and the active start instant stays the same, the cached values stay identical |
| `Tile.RunCoherent` | src/Tile.tsx:79-106 | after any non-empty sequence of renders from the initial state, each cached value is what its source yielded at some render k. From k to the last render, that source kept the same reference and the active start instant did not change, so the cache is never stale with respect to its source and the active start date (it may be stale with respect to `date` and `view`, see `Tile.DateOnlyChangeKeepsFirstValues`) |
| `Tile.DateOnlyChangeKeepsFirstValues` | src/Tile.tsx:84-101 | over two renders with the same source references and active start instant, both cached values are what the sources yielded for the first render's args, whatever `date` and `view` the second render has |
| `Tile.DeriveAsWritten` | src/Tile.tsx:77-106 | the step as written throws exactly when the previous state is null, and otherwise equals `Derive` |
| `Tile.FirstMountThrowsAsWritten` | src/Tile.tsx:77-87 | with the first previous state null (line 77 declares `state` static), the first step throws for every props; from the intended all-absent state it does not |
| `Tile.EvalDisabled` | src/Tile.tsx:131-135 | disabled iff: the min date is present and the date is strictly before its transform; or the max date is present and the date is strictly after its transform; or the predicate is present and holds. The predicate is called iff it is present and neither bound check disabled the tile |
| `Tile.BoundsAreInclusive` | src/Tile.tsx:132-133 | a date on or within the transformed bounds is disabled only by the predicate |
| `Tile.Render` | src/Tile.tsx:126-143 | the button shows the caller's classes and the cached className and content; the disabled flag is evaluated afresh on every render |
| `Tile.TileEngine.constructor` | src/Tile.tsx:77 | a new tile starts from the all-absent state |
| `Tile.TileEngine.Step` | src/Tile.tsx:79-106 | the in-place update leaves the fields equal to `Derive` of the props and the old fields; it reports a derivation function as called exactly when its slice is stale and its source is a function |
| `Flex.SlotsFillContainer` | src/Flex.tsx:43 | `count` slots of the basis width fill exactly 100 percent, and one slot is between 0 and 100 percent |
| `Flex.SlotStyle` | src/Flex.tsx:42-48 | the slot style has exactly the five slot properties: basis `100/count` percent, shrink 0, grow 0, overflow hidden. `marginLeft` is non-null iff the index is 0 and the offset is non-zero, and then it is `100*offset/count` percent. It is null, not 0%, otherwise |
| `Flex.FirstMarginIsOffsetSlots` | src/Flex.tsx:47 | the first child's margin for a non-zero offset is exactly offset times the basis: it skips `offset` slot widths |
| `Flex.SlotStyleIsIndexIndependent` | src/Flex.tsx:43-46 | every slot property except the margin is the same for every index |
| `Flex.LayoutChildren` | src/Flex.tsx:39-50 | one output child per input child, in order, with the same props and with the slot style for its index as its style |
| `Flex.LayoutDiscardsChildStyles` | src/Flex.tsx:40-48 | two child lists that differ only in their styles are laid out identically: the previous style is replaced, not merged |
| `Flex.ContainerStyle` | src/Flex.tsx:31-36 | the container style has `display`, `flexDirection` and `flexWrap` and the caller's properties, and no others. Every caller property wins. Where the caller sets none, `display` is flex, `flexDirection` is the direction and `flexWrap` is `wrap` iff `wrap` is true, else `nowrap` |
| `Flex.Flex` | src/Flex.tsx:18-52 | the container keeps the class name and the other props. Its style has the three flex keys plus the caller's, every caller property wins, and otherwise `display` is flex, `flexDirection` the direction and `flexWrap` `wrap` iff `wrap` is true, else `nowrap`. Its children are the input children in order, with their own props and the slot style for their index in place of their old style |
| `MonthView.Day` | src/MonthView/Day.jsx:26-53 | the class list is the caller's classes, then the base class, then the weekend modifier iff `isWeekend` (else null), then the neighbouring-month modifier iff the month differs from `currentMonthIndex` (else null); its length is the caller's plus 3. The view is `"month"`, the bound transforms are day start and day end, `formatAbbr` is `formatLongDate` and the label is `formatDay(locale, date)`, each falling back to its default |
| `MonthView.DayPassesOtherProps` | src/MonthView/Day.jsx:32-38 | every prop the day cell does not set reaches the tile unchanged: dates, locale, bounds, sources and predicate |
| `MonthView.DayDisabledUsesDayBounds` | src/MonthView/Day.jsx:37-48 | a day tile is disabled iff its date is before the start of the min date's day, or after the end of the max date's day, or the predicate holds for it in the month view |

## Left out

- React machinery is not modelled: JSX, component lifecycle,
  `React.Children.map` and `cloneElement`. Only the computed records and
  lists are modelled. `LayoutChildren` covers element children only.
  `React.Children.map` also calls the callback for null, undefined and
  boolean children, and each takes up an index. The callback hands them to
  `React.cloneElement`, which throws, so such children make the render fail.
  Nested arrays are flattened, which shifts the indices. Neither is modelled.
- PropTypes declarations are not modelled. They only check types at run
  time.
- `clsx` is a separate library. The rendered class name is the pair of
  the caller's classes and the cached className (`Tile.Render`).
- Event handlers are not modelled (`onClick`, `onFocus`, `onMouseOver`),
  and neither is the `<abbr aria-label>` wrapper. `formatAbbr` is only
  carried as a prop.
- `Tile.Render`'s button omits the tile's `children` (src/Tile.tsx:142)
  and its `style` (src/Tile.tsx:139). So the day label in
  `DayTile.children` does not reach a rendered button in the model.
- Floating point is not modelled. Percentages are exact reals, so
  `toPercent`'s number-to-string formatting is left out. `count` must be at
  least 1 (`requires count >= 1`), because 0 gives non-finite values.
- Odd JavaScript values are not modelled. An Invalid Date has a NaN
  `getTime`, which makes `datesAreDifferent` true even for the same object.
  Non-integer or NaN offsets are out too. Offsets are integers, and an
  absent value is `None`.
- JavaScript compares primitive strings by value. Callers of the model
  give equal static strings the same `id`, so `SameRef` matches `===`.
- Derivation functions and `tileDisabled` that throw are not modelled.
  They are total functions here, so a throw that stops the render has no
  counterpart.
- `static state = {}` (src/Tile.tsx:77) declares a class-level field and
  not the instance's initial state. React then passes null as the first
  previous state, and line 87 reads a field of null, so the code as written
  throws on a tile's first render. The model starts each tile from the
  intended all-absent state (`Tile.TileEngine.constructor`). The code as
  written is `Tile.DeriveAsWritten`; see "## Findings".
- Some props reach the tile from the day cell unchanged but are not
  modelled: `style` and the event handlers. A `children` prop in the spread
  does not reach it: the explicit label child (src/MonthView/Day.jsx:50)
  replaces it, as `DayTile.children` models.
- MonthView.Day: requires `classes` to be present. Spreading an absent
  `classes` throws a TypeError, and the model has no counterpart for that
  crash.

## Findings

| source | as written | input that shows it | evidently intended | confidence | as-written member | corrected member |
|---|---|---|---|---|---|---|
| src/Tile.tsx:77-87 | `state` is declared `static`, so the instance has no initial state; React passes null as the first `prevState`, and line 87 reads `prevState.tileClassNameProps` | the first render of any tile, with any props | an empty instance state, so the first step derives both slices | high, not executed | `Tile.FirstMountThrowsAsWritten` | `Tile.FirstStepDerivesBoth` |
