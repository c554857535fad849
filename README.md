# Context popup: placement geometry and click dismissal

A Dafny model of the two algorithms in `src/utils.ts` of the ts-context-popup
component:

- **Placement** (`popup_position.dfy`, module `PopupPosition`): `getPopupPosition`.
  From the context (anchor) element's bounding rectangle, the popup's size and, when
  the popup has an arrow, the arrow's size and the popup's border radius, it computes
  a nudge (`popupOffsetX/Y`) that keeps the arrow out of the popup's rounded corners,
  the arrow's distances from the popup edges (`arrowPos*`), ten candidate coordinates,
  and the `posEntries` list of twelve `(placement, {x, y})` pairs. It returns the entry
  for the requested `PopupPlacement` through a JavaScript `Map`. The model is a set of
  total functions over exact `real` numbers and a twelve-constructor `Placement`
  datatype, with `Map.get` modelled on the entry list itself (a later entry with the
  same key wins; a missing key gives `None`, JavaScript's `undefined`).
- **Dismissal** (`dismissal.dfy`, module `Dismissal`): `dealPopupOnClick`. The open
  popups form a stack, oldest first. On a click, the first entry whose popup element
  contains the click target is found with `filter` and `indexOf`. Everything after it
  (or the whole stack, if no popup contains the target) is spliced off and hidden,
  oldest first. The stack is cut just after the oldest entry whose popup contains the
  target; that entry and every older one survive. No anchor and no dismiss policy is
  consulted. The model is a class `PopupStack` whose
  `stack` field is the array the source splices in place. Its `hideLog` field records every `hide()` call. `Node.contains`
  is a function parameter. The specification function `SurvivorCount` says how many
  entries survive.

The properties proved:

- The nudge. For a numeric radius, the arrow lies at the larger of the natural gap
  and the radius; for a NaN radius it lies at the gap. The popup is pushed by exactly the distance the arrow moved. Nothing moves without
  an arrow or when the radius is NaN.
- The placement lookup is total. It pairs the side's coordinate with the alignment's
  coordinate.
- The popup's edge meets the context's edge on the requested side.
- Start and end alignment line up the near or far edges, moved out by the nudge.
  Centre alignment lines up the centres.
- For start and end alignment, with the nudge applied, an arrow drawn at its computed distance from the aligned
  edge lands exactly where an arrow centred on the context would be.
- For dismissal: the stack becomes a prefix of the old one. The newly hidden entries
  are exactly the removed suffix, in stack order. An empty stack is untouched.
- A second click on the same target hides nothing more.

## Model

| member | source | states |
|---|---|---|
| `PopupPosition.ComputeNudge` | src/utils.ts:39-65 | without an arrow both offsets are 0 and the arrow positions are unassigned; with one, left = right and top = bottom, each arrow position is at least the radius and at least the natural gap (`widthDelta`/`heightDelta`) and equal to one of them, each offset is the arrow position minus the gap (so 0 exactly when the gap is at least the radius); a NaN radius nudges nothing |
| `PopupPosition.NudgeExample` | src/utils.ts:49-57 | with a 5px radius and a 100px context, an 80px arrow gives offset 0 and arrow position 10, and a 95px arrow gives offset 2.5 and arrow position 5 |
| `PopupPosition.MapGet` | src/utils.ts:142 | `new Map(entries).get(key)`: None exactly when no entry has the key; otherwise the value of an entry with that key after which no entry has it (the last one) |
| `PopupPosition.WidthDelta` | src/utils.ts:49 | `widthDelta` is the gap on each side of an arrow centred on the context: gap + arrow width + gap = context width |
| `PopupPosition.HeightDelta` | src/utils.ts:50 | `heightDelta` is the gap above and below a centred arrow: gap + arrow height + gap = context height |
| `PopupPosition.ComputeCandidates` | src/utils.ts:73-87 | the side coordinates make the popup touch the context (x + width = left, x = right, y + height = top, y = bottom); the start/end alignments put the near edge at top − offsetY / left − offsetX and the far edge at bottom + offsetY / right + offsetX; the centre alignments put the popup's centre at top + abs(height/2) / left + abs(width/2) |
| `PopupPosition.PosEntries` | src/utils.ts:89-138 | `posEntries` has twelve entries; each placement is the key of exactly one of them; each entry pairs its placement's side coordinate with its alignment coordinate |
| `PopupPosition.LastWithKey` | src/utils.ts:142 | the lookup over the first n entries: None exactly when none of them has the key, otherwise the value of the last of them that has it |
| `PopupPosition.LookupPairsSideWithAlign` | src/utils.ts:89-142 | for every placement the lookup succeeds and gives the side's coordinate paired with the alignment's coordinate (e.g. above-right gives `(xOfAlignRight, yOfAboveSide)`) |
| `PopupPosition.GetPopupPosition` | src/utils.ts:15-143 | getPopupPosition never returns undefined, for any of the twelve placements |
| `PopupPosition.SideEdges` | src/utils.ts:73-83 | left side: popup's right edge on the context's left edge; right side: x = context right; above: popup's bottom edge on the context's top; below: y = context bottom |
| `PopupPosition.AlignEdges` | src/utils.ts:77-87 | top/left alignment: y = top − offsetY, x = left − offsetX; bottom/right alignment: popup's far edge at bottom + offsetY, right + offsetX |
| `PopupPosition.CenterAlignment` | src/utils.ts:78-86 | for a measured context rectangle (non-negative size), centre alignment puts the popup's centre on the context's centre |
| `PopupPosition.ArrowStaysCentredOnContext` | src/utils.ts:46-87 | with an arrow and start or end alignment, the arrow drawn at `arrowPos*` from the aligned popup edge sits exactly where an arrow centred on the context sits, nudged or not |
| `PopupPosition.PlacementExample` | src/utils.ts:74-90 | 100×40 context at (100, 50), 60×30 popup, arrow of the context's size, radius 0: left-top gives (40, 50) |
| `PopupPosition.CenteredPlacementExample` | src/utils.ts:82-86 | the same context and popup, any arrow: above-center gives (120, 20) and below-center (120, 90) |
| `Dismissal.SurvivorCount` | src/utils.ts:165-177 | the number of surviving entries never exceeds the stack's length |
| `Dismissal.SurvivorCountIsFirstMatch` | src/utils.ts:165-175 | the survivor count is 0 exactly when no popup contains the target; otherwise the last survivor's popup contains the target and no earlier survivor's does |
| `Dismissal.DismissalIsIdempotent` | src/utils.ts:165-177 | after truncation, the same click target keeps the whole remaining stack |
| `Dismissal.Filter` | src/utils.ts:165 | every filtered entry is in the stack and its popup contains the target; the result is empty exactly when no popup does; its first element is the first matching entry |
| `Dismissal.IndexOf` | src/utils.ts:170 | `indexOf`: −1 exactly when the entry is absent, otherwise the first index holding it |
| `Dismissal.IndexOfFirstFiltered` | src/utils.ts:165-170 | `indexOf(clickedPopup) + 1` equals the survivor count, even when an equal entry occurs twice |
| `Dismissal.ClickInOldestPopupExample` | src/utils.ts:165-177 | stack A, B, C with a click inside A's popup only: A alone survives |
| `Dismissal.PopupStack.constructor` | src/components/ContextPopup.tsx:15 | a stack holding the given entries, with no `hide` calls yet |
| `Dismissal.PopupStack.Hide` | src/utils.ts:150 | a `hide()` call appends the entry to the call log |
| `Dismissal.PopupStack.DealPopupOnClick` | src/utils.ts:155-183 | the stack becomes its prefix of length `SurvivorCount` (unchanged entries, empty when no popup contains the target, untouched when empty); the new `hide` calls are exactly the removed suffix, once each, oldest to newest; survivors followed by newly hidden entries give back the old stack |

## Left out

- DOM measurement: `getBoundingClientRect` (src/utils.ts:28, 35, 47) and `getComputedStyle` (src/utils.ts:48) are inputs. The rectangles are `Rect` and `Size` values. The border radius is the result of `parseInt`: a whole number of pixels, or NaN.
- `parseInt` itself, i.e. how the `border-radius` text becomes a number, is not modelled.
- `console.log` (src/utils.ts:30, 37, 140) is logging only.
- JavaScript numbers are IEEE doubles. The model computes with exact reals, so rounding in the halvings and subtractions is not captured.
- `Node.contains` (src/utils.ts:165) is the `contains` function parameter. The DOM tree is not modelled.
- What `hide()` does is not modelled; a call only appends to `hideLog`. In particular, a callback that re-enters the stack is not modelled. The source splices before it calls any `hide`, so such a callback could not disturb the loop anyway.
- `indexOf` compares objects by identity, while the model compares `PopupInfo` values. `IndexOfFirstFiltered` shows the result is the same either way.
- `HideOption` (src/utils.ts:145) is declared but unused, and the `option` parameter is commented out (src/utils.ts:158). No dismiss policy exists to model.
- `popupArrowHorizontalPos` (src/utils.ts:67-70) is an empty stub. The arrow positions are computed (part of `ComputeNudge`) but the source never returns them.
- `src/utils.ts` has no viewport-fit adjustment and no arrow-style output, so the model has neither.
- src/components/ContextPopup.tsx is React glue: the stack push, click-listener registration, portal mounting and style assignment. Only its module-level stack array is reflected, as the `PopupStack` class. src/App.tsx is demo UI.
