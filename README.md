# France specialty quiz map — verified model

A Dafny model of the interactive France map quiz (React + Leaflet + papaparse).
The user clicks a department on the map. The overlay card then shows the department's
name and code, with its culinary specialty hidden behind a "Voir la réponse" button.
Clicked departments turn from green to red.

The model covers three parts.

- **`Specialties`** (`specialties.dfy`): the specialty lookup. The CSV rows
  (`code`, `nom`, `specialite`) are folded in file order into a map from code to
  specialty. A row with an empty `code` or `specialite` is skipped, and a later row
  overwrites an earlier one. `Fold` is the pure specification. `BuildSpecialtyMap` is the
  `forEach` loop, proved equal to it. Lemmas characterise the fold completely:
  - which codes have an entry (both directions);
  - that every value is non-empty;
  - which row's value wins;
  - how folding distributes over concatenation.
- **`FranceMap`** (`france_map.dfy`): the quiz state of the map component as the class
  `QuizMap`. Its fields are GeoJSON presence, the lookup, the lookup captured by the
  drawn layer's click handlers, the set of clicked departments, the current selection
  and the revealed flag. Its event methods
  are the GeoJSON arrival, the CSV `complete` callback, a click and the reveal button.
  `Resolve` is `specialties[code] || 'Spécialité non trouvée'`. `MapStyle` is the
  per-department path style.
- **`FranceData`** (`france_data.dfy`): the `useFranceData` hook as the class
  `FranceDataLoader`. Its fields are `loading`, `error`, GeoJSON presence and the
  lookup. Each method is a resumption of the asynchronous `fetchData` (the GeoJSON
  response is not ok, it is ok, or a value was thrown and caught) or a papaparse
  callback (the CSV completes, the CSV fails). `Status` is the loading / failed / ready view.

The asynchronous order of events becomes preconditions on the event methods. A click
needs the GeoJSON to be drawn. The reveal button exists only while a department is
selected. In `useFranceData`, the CSV callbacks fire only after the GeoJSON is set.
These conditions are derived from the fields; there is no extra state. A CSV field that
is missing from a row is modelled as the empty string, since both are falsy in the row filter. The GeoJSON
itself is opaque: only whether it is set is modelled.

The click handlers are closures over the lookup. They are bound through
`onEachFeature` when the `GeoJSON` layer is created (src/components/FranceMap.tsx:81-86,
133). The layer is created again only when its `key`, the number of clicked
departments, changes (src/components/FranceMap.tsx:130). So a click resolves its fact
in the lookup as it was when the layer was last created: at the GeoJSON's arrival, or
at the last click on a department not clicked before. If the CSV completes after the
GeoJSON, the first click therefore shows the sentinel even for a department the CSV
lists. The model keeps this captured lookup as its own field.

Further facts about the code that the model follows:
- The sentinel fact is resolved at click time from the handler's lookup. It is not
  stored per department.
- A clicked code is not required to exist in the lookup.
- In the map component, a failed GeoJSON fetch or CSV parse is only logged. It does not
  become an error state.
- The page shell (`App.tsx`) uses the map component's own loading, not the
  `useFranceData` hook. The hook is modelled anyway.

## Model

| member | source | states |
|---|---|---|
| `Specialties.BuildSpecialtyMap` | src/components/FranceMap.tsx:52-57 | the `forEach` loop builds exactly the in-order fold of the rows |
| `Specialties.FoldKeys` | src/components/FranceMap.tsx:53-57 | a code has an entry iff some row has that code with both `code` and `specialite` non-empty |
| `Specialties.FoldValuesNonEmpty` | src/components/FranceMap.tsx:54-55 | every stored specialty is non-empty |
| `Specialties.FoldLastWriteWins` | src/components/FranceMap.tsx:53-55 | the entry for a code is the `specialite` of the last qualifying row with that code |
| `Specialties.LastWriteExists` | src/components/FranceMap.tsx:53-55 | every code with an entry has a last qualifying row, so the last-write-wins value always exists |
| `Specialties.FoldAppend` | src/components/FranceMap.tsx:53-57 | folding `a + b` is folding `a`, then letting `b`'s entries override |
| `FranceMap.Resolve` | src/components/FranceMap.tsx:86 | the shown fact is never empty; it is the stored specialty when present and non-empty, otherwise `'Spécialité non trouvée'` |
| `FranceMap.ResolveAfterLoad` | src/components/FranceMap.tsx:52-86 | a click handler holding the lookup built from `rows` shows the last qualifying row's specialty for that code, or the sentinel when no row qualifies |
| `FranceMap.MapStyle` | src/components/FranceMap.tsx:64-79 | `fillColor` is `#ef4444` iff the code was clicked, `#22c55e` iff not; weight 1, opacity 1, colour white, dash `3`, fill opacity 0.7 for every code |
| `FranceMap.StyleAfterClick` | src/components/FranceMap.tsx:64-89 | a click turns the clicked department red and leaves every other department's style unchanged |
| `FranceMap.QuizMap.constructor` | src/components/FranceMap.tsx:34-38 | initially no GeoJSON, empty lookup (also the captured one), no department clicked, no selection, answer hidden |
| `FranceMap.QuizMap.GeoJsonLoaded` | src/components/FranceMap.tsx:42-135 | the GeoJSON arrival creates the layer: the departments become clickable and their handlers capture the current lookup; nothing else changes |
| `FranceMap.QuizMap.SpecialtiesLoaded` | src/components/FranceMap.tsx:48-61 | the CSV `complete` callback replaces the lookup by the fold of the rows; the handlers already drawn keep the lookup they captured; nothing else changes |
| `FranceMap.QuizMap.Click` | src/components/FranceMap.tsx:81-133 | the clicked set becomes old set plus `code` (no code is removed; a repeat click leaves it as it was); the answer is hidden whatever it was; the selection becomes `{code, nom, Resolve(captured lookup, code)}`; a click on a code not clicked before recreates the layer, so the handlers capture the current lookup, while a repeat click keeps the old capture; the lookup is unchanged; the selected code is always in the clicked set |
| `FranceMap.QuizMap.Reveal` | src/components/FranceMap.tsx:150-152 | the answer is shown; only the revealed flag may change, so the selection and clicked set stay; calling it again changes nothing |
| `FranceMap.QuizSession` | src/components/FranceMap.tsx:42-152 | a session where the GeoJSON arrives before the CSV: click "01", reveal twice, click "971", click "01" again. The first click shows the sentinel, because its handler holds the empty lookup. The answer is shown after the reveal and hidden after the next click. "971" gives the sentinel. The second click on "01" gives "Volailles de Bresse". The clicked set is `{"01", "971"}` |
| `FranceMap.LoadedFirstSession` | src/components/FranceMap.tsx:42-96 | when the CSV completes before the GeoJSON arrives, the first click on "01" shows "Volailles de Bresse" with the answer hidden |
| `FranceData.CaughtMessage` | src/hooks/useFranceData.ts:47-50 | the stored error is the thrown `Error`'s message, or `'Unknown error'` for any other thrown value |
| `FranceData.FranceDataLoader.Status` | src/hooks/useFranceData.ts:11-57 | loading, failed and ready are mutually exclusive. Failed carries the error. Ready implies the GeoJSON is set and there is no error. The lookup is empty unless ready |
| `FranceData.FranceDataLoader.constructor` | src/hooks/useFranceData.ts:11-19 | `loading` true, `error` null, lookup empty, no GeoJSON |
| `FranceData.FranceDataLoader.Caught` | src/hooks/useFranceData.ts:47-51 | any caught throw sets `error` to its message and `loading` to false, keeping GeoJSON and lookup |
| `FranceData.FranceDataLoader.GeoNotOk` | src/hooks/useFranceData.ts:22-23 | a non-ok response ends with `error = 'Failed to fetch GeoJSON'`, `loading` false, GeoJSON unset, lookup empty |
| `FranceData.FranceDataLoader.GeoOk` | src/hooks/useFranceData.ts:22-25 | an ok response sets the GeoJSON while `loading` stays true and the lookup stays empty (GeoJSON is set before the lookup) |
| `FranceData.FranceDataLoader.CsvComplete` | src/hooks/useFranceData.ts:31-39 | the lookup becomes the fold of the rows (same skip-empty and last-write-wins rule), `loading` false, `error` null, status ready |
| `FranceData.FranceDataLoader.CsvError` | src/hooks/useFranceData.ts:41-45 | `error = 'Failed to load specialties'`, `loading` false, lookup empty, GeoJSON kept |
| `FranceData.LoadOutcomes` | src/hooks/useFranceData.ts:25-45 | after the GeoJSON, CSV completion ends ready with the fold of the rows; CSV failure ends failed with an empty lookup |

## Left out

- Leaflet rendering (`MapContainer`, `TileLayer`, and the drawing done by the `GeoJSON` component): presentation. The style is modelled as a function of the clicked set, recomputed on demand. The `key={clickedDepartments.size}` re-creation of the layer is left out only as drawing. Its rebinding of the click handlers is modelled by `handlerLookup`.
- The global default-marker-icon mutation: a side effect on a foreign library.
- Hover `setStyle` calls on `mouseover` / `mouseout`: presentation-only calls into Leaflet layers.
- The JSX overlay markup and `App.tsx`: a static page shell. Only the reveal button's action and the condition under which it is drawn are modelled.
- `fetch`, `response.json()`, `Papa.parse` and the `async`/`await` sequencing: their results are the parameters of the event methods. CSV tokenising happens inside papaparse, which is not part of this model.
- GeoJSON geometry: opaque floating-point data that no modelled code reads. Only its presence is kept.
- Console logging of errors: output only. In the map component, a failed GeoJSON fetch or CSV parse changes no state, so it has no event method.
- The lookup is a JavaScript object used as a record. The model treats it as a plain map. Keys inherited from `Object.prototype` (such as `constructor`), which `specialties[code]` would also find, are not modelled.
- Teardown and cancellation of in-flight loads, and React's development-mode double run of effects: no code handles them.
- A "clicked codes must exist in the lookup" invariant: the click handler does not enforce it.
