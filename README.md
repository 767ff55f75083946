# Atom builder: a Dafny model of its bookkeeping

The application is a teaching app in which a student logs in, builds an atom by
adding and removing protons, neutrons and electrons to match a target element,
looks at the atom as a 2D picture or in a rotatable 3D viewer, finishes the
attempt for a score and lands on a top-ten leaderboard.

This project models the integer and list logic of that app and proves what it
promises:

- `AtomCanvas` (components/AtomCanvas.tsx): the electron-shell fill over
  capacities 2, 8, 18 and 32. The imperative loop is proved to build the
  per-shell counts, and those counts are proved to have the promised shape and
  total. Also the proton/neutron tagging of nucleus particles.
- `Atom3DViewer` (components/Atom3DViewer.tsx): the particle list the viewer
  generates, as an imperative method proved to build the nucleus followed by
  the shells. It has the same per-shell electron counts as the 2D picture.
  Also the depth-sorted frame with its opacity floor, and the rotation, zoom
  and drag state as a class whose zoom never leaves [0.5, 2].
- `BuilderView` (components/BuilderView.tsx): the three counters and the target
  element as a class; the score (in hundredths, then rounded) proved to depend
  only on the number of matching criteria; the element search; the restore of a
  saved attempt.
- `LoginView` (components/LoginView.tsx): the form fields, the submit guard, the
  disabled button and the group-icon lookup.
- `App` (App.tsx): the screen routing and the leaderboard update. The update
  is a stable sort best-first, then a cut to ten, proved sorted, a sub-multiset,
  dropping only the lowest, and placing the new entry ahead of its ties.

Helper modules: `Wrappers` (an Option type for `null`/`undefined`), `Seqs`
(`find`, `filter` and `includes` from JavaScript's Array and String), `Sorting`
(the stable sort behind `Array.prototype.sort`, stable since the 2019 edition of
ECMA-262, section 22.1.3.27) and `Types` (the records of types.ts).

Three behaviours of the code are worth stating outright, and the model keeps
them as written:

- The 3D viewer computes a tilt for every shell
  (components/Atom3DViewer.tsx:56-57) and never uses it: every electron is
  placed at z = 0 (line 64), and `Atom3DViewer.ShellsUpToShape` says so.
- The perspective scale `600 / (600 - z2)` (line 121) divides without a clamp.
- The 2D fill loop always pushes the remainder before it stops, so 0 electrons
  give the one-entry distribution `[0]`; the 3D fill loop skips a shell whose
  count is zero (line 53).

## Model

| member | source | states |
|---|---|---|
| `AtomCanvas.ElectronDistribution` | components/AtomCanvas.tsx:16-30 | the loop over capacities, which fills while more electrons remain than the shell holds and then pushes the rest and stops, returns exactly `Distribution(electrons)` |
| `AtomCanvas.Distribution` | components/AtomCanvas.tsx:17-29 | between one and four entries; each entry is at most its shell's capacity; every entry but the last is full; the result is `[0]` exactly when there are no electrons; otherwise no entry is zero |
| `AtomCanvas.ShellCount` | components/AtomCanvas.tsx:14-27 | shell k receives min(max(e - capacity of earlier shells, 0), capacity of k), which is never more than the shell's capacity |
| `AtomCanvas.ShellsUsed` | components/AtomCanvas.tsx:19-29 | the loop produces one to four entries |
| `AtomCanvas.PlacedBeforeIsCapped` | components/AtomCanvas.tsx:19-28 | the first k shells together hold min(electrons, their joint capacity) |
| `AtomCanvas.ShellsPastDistributionEmpty` | components/AtomCanvas.tsx:19-29 | a shell past the last entry of the distribution would receive no electron |
| `AtomCanvas.DistributionTotal` | components/AtomCanvas.tsx:17-29 | the entries sum to min(electrons, 60); electrons beyond the fourth shell are dropped |
| `AtomCanvas.DistributionExamples` | components/AtomCanvas.tsx:16-30 | 6 electrons give [2, 4], 10 give [2, 8], 20 give [2, 8, 10], 70 give [2, 8, 18, 32] |
| `AtomCanvas.NucleusKinds` | components/AtomCanvas.tsx:35-36 | protons + neutrons particles; particle i is a proton exactly when i < protons; none is an electron |
| `AtomCanvas.NucleusKindCounts` | components/AtomCanvas.tsx:35-44 | exactly `protons` particles are protons and `neutrons` are neutrons |
| `Atom3DViewer.NucleusLayout` | components/Atom3DViewer.tsx:33-44 | protons + neutrons nucleons (none for a total of 0); nucleon i is a proton when i < protons and a neutron otherwise; each radius 15 + 5·random lies in [15, 20) |
| `Atom3DViewer.GenerateParticles` | components/Atom3DViewer.tsx:29-73 | the generation effect's loops build exactly the nucleus followed by the electrons of shells 0 to 3, each shell filled with min(remaining, capacity) and an empty shell skipped |
| `Atom3DViewer.GeneratedParticles` | components/Atom3DViewer.tsx:33-71 | the list holds p + n + min(e, 60) particles. The nucleons come first, the protons first among them and the neutrons after. Electrons follow in non-decreasing shell order. Shell k holds min(max(e - earlier capacity, 0), cap k) electrons |
| `Atom3DViewer.GeneratedKindCounts` | components/Atom3DViewer.tsx:33-71 | the viewer's particles are exactly `protons` protons, `neutrons` neutrons and min(electrons, 60) electrons |
| `Atom3DViewer.ShellsUpToSize` | components/Atom3DViewer.tsx:47-71 | the electrons of the first k shells number min(e, capacity of those shells) |
| `Atom3DViewer.ShellsUpToShape` | components/Atom3DViewer.tsx:51-71 | every generated electron is on a shell below k, on that shell's orbit radius, at z = 0 and at a turn in [0, 1); shell indices never decrease along the list |
| `Atom3DViewer.ShellsUpToOccupancy` | components/Atom3DViewer.tsx:51-71 | shell j holds ShellCount(e, j) electrons when j < k and none otherwise |
| `Atom3DViewer.ShellRunTurns` | components/Atom3DViewer.tsx:59-68 | the i-th of a shell's `count` electrons sits at i/count of a full turn; these turns lie in [0, 1) and strictly increase, so no two coincide |
| `Atom3DViewer.CanvasAndViewerAgree` | components/Atom3DViewer.tsx:47-71 | for every shell, the number of electrons the 3D viewer puts on it equals the 2D distribution's entry, or 0 past the distribution's end |
| `Atom3DViewer.CountInShellAppend` | components/Atom3DViewer.tsx:61-69 | counting a shell's electrons distributes over concatenation of particle lists |
| `Atom3DViewer.CountInShellUniform` | components/Atom3DViewer.tsx:61-69 | a run that is all on a shell counts its length there, and a run with nothing on it counts zero |
| `Atom3DViewer.Opacity` | components/Atom3DViewer.tsx:133 | opacity is at least 0.2 and at least (depth + 250)/500, and is one of the two |
| `Atom3DViewer.Project` | components/Atom3DViewer.tsx:122-128 | a projected particle keeps its kind and depth and has opacity at least 0.2; it is drawn below nucleon size exactly when it is an electron |
| `Atom3DViewer.DepthOrderIsTotalPreorder` | components/Atom3DViewer.tsx:129 | the comparator `a.pz - b.pz` orders particles totally and transitively |
| `Atom3DViewer.ProjectFrame` | components/Atom3DViewer.tsx:107-129 | a frame has one entry per particle, is a permutation of the projected particles, and is ordered by non-decreasing depth |
| `Atom3DViewer.FrameOpacityFloor` | components/Atom3DViewer.tsx:132-133 | every drawn particle has opacity at least 0.2 and is the projection of some particle at its depth |
| `Atom3DViewer.ClampZoom` | components/Atom3DViewer.tsx:184 | a zoom below 0.5 becomes 0.5, above 2 becomes 2, and one within [0.5, 2] is kept |
| `Atom3DViewer.ApplyZoom` | components/Atom3DViewer.tsx:223-224 | a wheel event or a press of + or - keeps a zoom in [0.5, 2] within [0.5, 2] |
| `Atom3DViewer.ZoomStaysInRange` | components/Atom3DViewer.tsx:183-185 | from any zoom in [0.5, 2] (the initial 1 among them), any sequence of wheel events and button presses ends in [0.5, 2] |
| `Atom3DViewer.ZoomOutFloors` | components/Atom3DViewer.tsx:183-185 | zooming out only, the result is max(0.5, zoom - total zoom-out) and the total is non-negative |
| `Atom3DViewer.RepeatedZoomOutAmount` | components/Atom3DViewer.tsx:184 | n identical inputs zoom out n times one input's amount |
| `Atom3DViewer.RepeatedZoomOutBottoms` | components/Atom3DViewer.tsx:183-185 | enough identical zoom-out inputs (1000 wheel notches, say) leave the zoom at exactly 0.5 |
| `Atom3DViewer.TurnInRange` | components/Atom3DViewer.tsx:60 | i/count lies in [0, 1) for i < count |
| `Atom3DViewer.TurnsIncrease` | components/Atom3DViewer.tsx:60 | i/count < j/count for i < j < count |
| `Atom3DViewer.ViewState.constructor` | components/Atom3DViewer.tsx:22-25 | rotation (0, 0), zoom 1, not dragging, last pointer position (0, 0) |
| `Atom3DViewer.ViewState.MouseDown` | components/Atom3DViewer.tsx:161-164 | sets the dragging flag and records the pointer; rotation and zoom unchanged |
| `Atom3DViewer.ViewState.MouseMove` | components/Atom3DViewer.tsx:166-177 | while dragging, rotation x grows by 0.01 × vertical delta and rotation y by 0.01 × horizontal delta, and the pointer is recorded; when not dragging nothing changes |
| `Atom3DViewer.ViewState.MouseUp` | components/Atom3DViewer.tsx:179-181 | clears the dragging flag (also used for mouse leave, line 217); nothing else changes |
| `Atom3DViewer.ViewState.Wheel` | components/Atom3DViewer.tsx:183-185 | zoom becomes the clamped `zoom - 0.001·deltaY`, stays in [0.5, 2]; nothing else changes |
| `Atom3DViewer.ViewState.ZoomIn` | components/Atom3DViewer.tsx:223 | zoom becomes min(2, zoom + 0.1), stays in [0.5, 2]; nothing else changes |
| `Atom3DViewer.ViewState.ZoomOut` | components/Atom3DViewer.tsx:224 | zoom becomes max(0.5, zoom - 0.1), stays in [0.5, 2]; nothing else changes |
| `Atom3DViewer.ViewState.ResetView` | components/Atom3DViewer.tsx:225 | rotation (0, 0) and zoom 1 whatever the prior state, drag state untouched; the outcome does not depend on the prior rotation or zoom, so a second reset changes nothing |
| `BuilderView.MatchCount` | components/BuilderView.tsx:152 | the number of matching criteria is at most 3; it is 3 exactly when all match and 0 exactly when none does |
| `BuilderView.RoundHundredths` | components/BuilderView.tsx:103 | the result is the whole number nearest to h/100, halves rounded up, as `Math.round` gives it |
| `BuilderView.Score` | components/BuilderView.tsx:94-103 | the score is 0, 33, 67 or 100 for 0, 1, 2 or 3 matching criteria, whichever criteria they are; 100 exactly when all match |
| `BuilderView.AccuracyFraction` | components/BuilderView.tsx:152 | the accuracy bar's fraction is the matching criteria over 3, in [0, 1], and full exactly when the score is 100 |
| `BuilderView.DecimalString` | components/BuilderView.tsx:73 | `z.toString()` is a non-empty string of decimal digits without a leading zero |
| `BuilderView.DecimalRoundTrip` | components/BuilderView.tsx:73 | reading the decimal string back gives the number |
| `BuilderView.FilteredElements` | components/BuilderView.tsx:69-75 | an order-preserving sub-list of the table; an element is kept, as often as the table holds it, exactly when the lowered term occurs in its lowered name or symbol or the term is its atomic number |
| `BuilderView.EmptySearchKeepsAll` | components/BuilderView.tsx:69-75 | with an empty term every element is listed in table order |
| `BuilderView.RestoredIndex` | components/BuilderView.tsx:39 | the restored element is the first whose Z equals the saved Z, or the table's first element when none does |
| `BuilderView.Builder.constructor` | components/BuilderView.tsx:19-22 | target is the table's first element and all counters are 0 |
| `BuilderView.Builder.AddParticle` | components/BuilderView.tsx:109-113 | the counter of the given kind grows by one; the other two and the target are unchanged |
| `BuilderView.Builder.RemoveParticle` | components/BuilderView.tsx:115-119 | the counter of the given kind drops by one unless it is 0; the other two and the target are unchanged |
| `BuilderView.Builder.ResetAtom` | components/BuilderView.tsx:121-125 | all three counters become 0 whatever they were, so a second reset changes nothing; the target is unchanged |
| `BuilderView.Builder.SelectElement` | components/BuilderView.tsx:171 | picking an element changes the target only |
| `BuilderView.Builder.Restore` | components/BuilderView.tsx:39-43 | the target is the element the saved Z selects, and each counter is the saved value or 0 when missing |
| `BuilderView.Builder.Finish` | components/BuilderView.tsx:94-106 | the result reports the current counts unchanged, the score for the number of matching criteria, the time taken and the target's name |
| `LoginView.GroupIcon` | components/LoginView.tsx:23-25 | the icon of the first group with the id when that icon is non-empty, the default icon when that icon is empty or no group has the id; no other group's icon is ever returned |
| `LoginView.LoginForm.constructor` | components/LoginView.tsx:12-14 | all three fields start empty |
| `LoginView.LoginForm.SetStudentId` | components/LoginView.tsx:49 | sets the id only |
| `LoginView.LoginForm.SetStudentName` | components/LoginView.tsx:57 | sets the name only |
| `LoginView.LoginForm.SelectGroup` | components/LoginView.tsx:70 | the clicked group replaces any earlier selection; the other fields are unchanged |
| `LoginView.LoginForm.SubmitDisabled` | components/LoginView.tsx:90 | the button is disabled exactly when the submit guard would reject |
| `LoginView.LoginForm.Submit` | components/LoginView.tsx:16-21 | the app receives a login exactly when id, name and group are all non-empty, carrying exactly those three values |
| `App.NewEntry` | App.tsx:29-34 | the entry carries every field of the result plus the student's name and group and the date |
| `App.RanksAheadIsTotalPreorder` | App.tsx:35-37 | the leaderboard comparator is total and transitive, so the stable sort is well defined |
| `App.UpdatedLeaderboard` | App.tsx:35-38 | the new board has min(old length + 1, 10) entries, ordered by score non-increasing and, at equal score, time non-decreasing; it is a sub-multiset of the old entries plus the new one |
| `App.KeepsBestEntries` | App.tsx:35-38 | every kept entry ranks at least as high as every dropped one, so only the lowest-ranked entries are dropped |
| `App.InsertedBehindStrictlyAhead` | App.tsx:35-37 | every entry the stable sort places before the new one ranks strictly ahead of it |
| `App.UpdatedIsInsertion` | App.tsx:35-38 | the update is the old board ranked, with the new entry inserted, cut to size |
| `App.NewEntryAheadOfTies` | App.tsx:35 | the new entry is kept behind only entries strictly ahead of it, hence ahead of every old entry with the same score and time; otherwise it is cut because ten strictly better entries fill the board |
| `App.CutInsertion` | App.tsx:35-38 | cutting the ranked board with the new entry inserted keeps the entry at its place behind strictly-better entries only, or drops it |
| `App.AppState.constructor` | App.tsx:9-19 | starts on the login view with no student and no result, and the board read back from storage or empty |
| `App.AppState.CurrentScreen` | App.tsx:57-74 | the login view renders exactly when the view is LOGIN; the builder renders exactly when the view is BUILDER and a student is set, the results exactly when the view is RESULTS and both a student and a result are set; otherwise nothing renders |
| `App.AppState.HandleLogin` | App.tsx:21-24 | records the student and moves to the builder screen; result and board unchanged |
| `App.AppState.HandleFinish` | App.tsx:26-43 | always stores the result and moves to results; with a student the board becomes the update with the new entry, without one it is unchanged |
| `App.AppState.HandleRestart` | App.tsx:45-47 | moves to the builder keeping student, result and board |
| `App.AppState.HandleLogout` | App.tsx:49-53 | clears student and result and moves to login; the board is unchanged |
| `Seqs.FindFirst` | components/BuilderView.tsx:39 | `find`: the index of the first element satisfying the test, or none exactly when no element does |
| `Seqs.FilterSpec` | components/BuilderView.tsx:70 | `filter` returns an order-preserving sub-list holding each satisfying element as often as the input does, and nothing else |
| `Seqs.FilterAppend` | components/BuilderView.tsx:70 | filtering a concatenation filters each part |
| `Seqs.FilterKeepsAll` | components/BuilderView.tsx:70 | a filter whose test holds everywhere returns its input |
| `Seqs.IncludesIsSubstring` | components/BuilderView.tsx:71-72 | `includes` holds exactly when the needle is a contiguous slice of the string |
| `Sorting.InsertPos` | App.tsx:35 | an element is inserted after every element it may not stay ahead of and before the first it may, which makes the sort stable |
| `Sorting.Insert` | App.tsx:35 | insertion adds exactly the one element |
| `Sorting.Sort` | App.tsx:35 | the sort returns a permutation of its input |
| `Sorting.SortedSplit` | App.tsx:35-38 | in a sorted list every element before a cut may stay ahead of every element after it, which is why `slice(0, 10)` keeps the best |
| `Sorting.InsertSorted` | App.tsx:35 | inserting into a sorted list keeps it sorted |
| `Sorting.SortSorted` | App.tsx:35-37 | under a total preorder comparator the sort's output is sorted |
| `Sorting.SortStable` | App.tsx:35-37 | the sort is stable: for every element, the elements tied with it leave the sort in the order they entered it |

## Left out

- Coordinates are not modelled. This covers the 2D Fermat spiral (components/AtomCanvas.tsx:38-43), the 2D electron angles (lines 99-104), the 3D sphere placement with `acos`, `sqrt`, `sin` and `cos` (components/Atom3DViewer.tsx:35-41), the rotation and the perspective scale `600/(600 - z2)` (lines 113-121). They are floating-point trigonometry. A nucleon keeps its radius. An electron keeps its shell, its fraction of a full turn and its z. The depth of each particle in a frame is supplied.
- The `phi` and `theta` angles are not modelled. The division by the nucleus total happens only inside the loop (line 35), so a total of 0 divides by nothing.
- `Math.random()` is a parameter: a sequence of reals in [0, 1), one per nucleon.
- The animation loop is not modelled: `requestAnimationFrame`, its cancellation, the auto-rotation step of 0.005 per frame, the drawn size scaling by perspective and zoom, the glow above opacity 0.6, and all canvas and SVG drawing (components/Atom3DViewer.tsx:77-159, components/AtomCanvas.tsx:47-131). These are scheduling and rendering.
- Real arithmetic is exact in the model. The source uses binary floating point, so its zoom steps of 0.1 can drift by rounding error. The score is computed in exact hundredths. The floating-point sums 33.33, 66.66, 66.67 and 100 are nowhere near a rounding boundary, so `Math.round` gives the same 0, 33, 67, 100.
- localStorage and JSON are not modelled (App.tsx:14-19 and 40; components/BuilderView.tsx:34-67 and 99). The app's constructor takes the already-parsed board. `Restore` takes an already-parsed record. A saved field that is missing is `None`. A saved field that is not a non-negative integer (a string, a negative number) is not modelled. Neither is a parse failure, which the source logs and ignores.
- The tutorial-seen flag, the element-list drawer and the 3D viewer's open flag are not modelled: they are presentation toggles.
- `Date.now` and `toLocaleDateString` are not modelled. The seconds taken and the formatted date are parameters of `Finish` and `HandleFinish`.
- services/geminiService.ts and the AI-insight and fun-fact effects (components/BuilderView.tsx:77-92) are not modelled. They are calls to an external text-generation service with fixed fallback strings.
- The HUD bar width `val/target*100` (components/BuilderView.tsx:203) is not modelled. It is a capped floating-point division by a target that can be 0.
- `String.prototype.toLowerCase` is a function parameter `lower`. `BuilderView.EmptySearchKeepsAll` assumes it maps the empty string to itself.
- ELEMENTS and GROUPS are parameters. The element table is assumed non-empty, as `useState(ELEMENTS[0])` needs.
- components/ResultsView.tsx is not modelled: it is presentation (its only decision is a score of at least 95 shown as perfect). vite.config.ts is build configuration.
- `Atom3DViewer.ViewState.ResetView`: idempotence is read off its postcondition (the new rotation and zoom are constants and nothing else changes), not proved by a separate lemma.
- `BuilderView.Builder.ResetAtom`: idempotence is read off its postcondition in the same way.
