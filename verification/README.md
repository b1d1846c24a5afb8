# Toilet-paper calculator: a Dafny model of the estimate

The calculator page collects up to three bowel-movement events for the day.
Each event has a length in "bananas" (an input that may be left empty), a
shape and a cleanliness preference. The page also asks for one paper type.
On submit it estimates how much paper the day needs:

- every non-empty event is weighted as `length × 4 × cleanliness × shape`;
- the weighted amounts are summed;
- the sum is multiplied by the paper factor and rounded with `Math.round`;
- the result is shown with a unit noun (grid squares for a roll, sheets
  otherwise) and the label of the chosen paper type.

This project models that computation, its weighting tables and the handler
that edits one field of one event.

- `wrappers.dfy`, module `Wrappers`: the `Option` type. `None` stands for an
  empty length input and for a failed search of the option list.
- `weights.dfy`, module `Weights`: the shape, cleanliness and paper tables,
  the lookup with its fallback to 1.0, the paper-option list and its label
  search, and the unit noun.
- `estimation.dfy`, module `Estimation`: the event record, the three default
  events, and the submit handler. The handler is a method with the source's
  accumulating loop, proved equal to a recursive total. It also holds
  `Math.round` and the lemmas about the total.
- `form.dfy`, module `PoopForm`: the change handler. It copies the list into
  a fresh array and writes one field of one event. The module also relates
  such an edit to the total.

Arithmetic is exact and uses scaled integers instead of floating point:

- a length is a whole number of tenths of a banana, because the number input
  accepts only non-negative multiples of 0.1 (`min="0"`, `step="0.1"`);
- every factor is in tenths (10 is 1.0);
- one event's weighted amount is in thousandths of a grid square;
- the total times the paper factor is in ten-thousandths.

`Math.round(v)` is `floor(v + 0.5)`, so for a value `x / 10000` it is
`(x + 5000) / 10000`. Dafny's division by a positive number rounds down, so
this is exact.

## Model

| member | source | states |
|---|---|---|
| Weights.TablesPositive | src/App.jsx:10-29 | every factor in the shape, cleanliness and paper tables is strictly positive |
| Weights.Lookup | src/App.jsx:57-58 | a lookup gives the value the table lists for a known key and exactly 1.0 for any other key (never an error), and is positive whenever every entry of the table is |
| Weights.ShapeFactor | src/App.jsx:58 | the shape multiplier lies between 0.8 and 1.4 and is exactly 1.0 for a shape missing from the table (never an error) |
| Weights.CleanFactor | src/App.jsx:57 | the cleanliness multiplier lies between 1.0 and 1.2, so it never lowers an estimate, and is exactly 1.0 for an unknown level |
| Weights.PaperFactor | src/App.jsx:64 | the paper multiplier lies between 0.3 and 1.2 and is exactly 1.0 for an unknown paper type |
| Weights.FindLabel | src/App.jsx:69 | the search over the option list gives the label of the first option with the given value, and gives nothing exactly when no option has that value |
| Weights.PaperLabel | src/App.jsx:69 | the label of the chosen paper type is found exactly when the factor table has that type (so the option list and the table agree, src/App.jsx:25-35), and a found label is one listed for that value |
| Weights.KnownPaperLabels | src/App.jsx:31-35 | the labels shown for roll, sheet and triple-sheet |
| Weights.UnitNoun | src/App.jsx:68 | the unit noun is 格 (grid squares) exactly when the paper type is roll, and 張 (sheets) otherwise |
| Estimation.Term | src/App.jsx:55-60 | an event's weighted amount is zero exactly when its length is zero, and lies between 3.2 and 6.72 squares per banana |
| Estimation.Contribution | src/App.jsx:54-61 | what an event adds is zero exactly when its length is empty or zero, lies between 3.2 and 6.72 squares per banana otherwise, and equals the sum of the event's entries in the reference list of weighted amounts |
| Estimation.TotalSquares | src/App.jsx:51-62 | the running total after all events lies between 3.2 and 6.72 grid squares per banana entered over the non-empty events |
| Estimation.MathRound | src/App.jsx:65 | Math.round of x/10000: the whole number r with r - 0.5 <= x/10000 < r + 0.5 (a tie goes up), non-negative for non-negative x |
| Estimation.MathRoundIsNearest | src/App.jsx:65 | no whole number is closer to x/10000 than the rounded value |
| Estimation.FinalAmount | src/App.jsx:64-65 | the shown amount is a non-negative whole number within half a unit of total × paper factor |
| Estimation.HandleSubmit | src/App.jsx:48-72 | the accumulating loop yields the rounded total times the paper factor, together with the paper type's unit noun and label |
| Estimation.TotalAppend | src/App.jsx:53-62 | the running total over two event lists, one after the other, is the sum of their totals |
| Estimation.TotalIsSumOverFilled | src/App.jsx:51-62 | the accumulated total equals the sum, over the non-empty events in order, of length × 4 × cleanliness × shape |
| Estimation.EmptyPoopContributesNothing | src/App.jsx:54 | inserting an event with an empty length anywhere in the list leaves the total unchanged |
| Estimation.AllEmptyTotalZero | src/App.jsx:51-62 | when every event is empty the total is 0 |
| Estimation.AllEmptyAmountZero | src/App.jsx:51-65 | when every event is empty the shown amount is 0 for every paper type |
| Estimation.DefaultPoopsGiveZero | src/App.jsx:3-7 | submitting the three default events gives 0 |
| Estimation.WorkedExample | src/App.jsx:55-65 | one 2-banana bar-shaped event with normal cleanliness gives 8 squares; on a roll 8 × 1.2 = 9.6 rounds to 10 |
| PoopForm.Apply | src/App.jsx:44 | the edited field takes the new value and the other two fields keep theirs |
| PoopForm.HandlePoopChange | src/App.jsx:42-46 | the result is a fresh copy of the same length in which event `index` has the edit applied and every other event is unchanged; as a whole it is the old list with that one event replaced, the form the edit lemmas below are stated on |
| PoopForm.TotalAfterReplace | src/App.jsx:42-62 | replacing one event changes the total by exactly the new event's contribution minus the old one's |
| PoopForm.EditOfEmptyPoopKeepsTotal | src/App.jsx:42-62 | changing the shape or cleanliness of an event with an empty length does not change the total |
| PoopForm.ClearingLengthRemovesContribution | src/App.jsx:42-62 | clearing an event's length lowers the total by exactly that event's contribution |

## Left out

- Floating point: the page computes with IEEE-754 doubles (`Number(...) * 4 * 1.1 …`). The model computes exactly, so an amount whose exact value sits at a rounding tie may differ from the page's by one.
- Parsing of the length text by `Number(...)`: lengths are taken as already parsed. The non-numeric text that would give NaN is not modelled, and neither are lengths that are not multiples of 0.1 or are negative, which the browser's form validation rejects before submit.
- Inherited object properties: a JavaScript table lookup with a key such as `constructor` finds a property of the object prototype instead of falling back to 1. The tables are modelled as plain maps, and the selects only ever produce the listed keys.
- The result text: only its parts that carry logic are modelled, namely the amount, the unit noun and the label (`undefined` on the page for an unknown paper type; `None` here). The surrounding wording and emoji are not modelled.
- PoopForm.HandlePoopChange: models the contents of the copied list only. The copy is shallow, so the page also mutates the event object that the previous list shares; that aliasing is not modelled.
- React plumbing: `useState`, `setPoops`, `setResult`, `preventDefault` and the JSX rendering are not modelled. State is passed in and results are returned.
- Build and styling configuration (`tailwind.config.js`, `vite.config.js`) has no logic and is not part of this model.
- The page computes only the total; it has no averaging, reported-sheets conversion, suggested-versus-actual comparison or eco message, so the model has none either.
