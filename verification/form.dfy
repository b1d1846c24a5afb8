/** The change handler behind every input of the form: it writes one field
    of one event into a copy of the event list. */
module PoopForm {
  import opened Wrappers
  import opened Estimation

  /** Which field of an event an input writes, with the value it writes. */
  datatype Edit =
    | EditLength(length: Option<nat>)
    | EditShape(shape: string)
    | EditCleanLevel(cleanLevel: string)

  /** The event with the one field the edit names set to the edit's value. */
  function Apply(p: Poop, edit: Edit): (q: Poop)
    ensures q.length == (if edit.EditLength? then edit.length else p.length)
    ensures q.shape == (if edit.EditShape? then edit.shape else p.shape)
    ensures q.cleanLevel == (if edit.EditCleanLevel? then edit.cleanLevel else p.cleanLevel)
  {
    match edit
    case EditLength(length) => p.(length := length)
    case EditShape(shape) => p.(shape := shape)
    case EditCleanLevel(cleanLevel) => p.(cleanLevel := cleanLevel)
  }

  /** Copies the list and writes the edited field of event `index` into the
      copy; the list keeps its length and every other event is unchanged. */
  method HandlePoopChange(poops: seq<Poop>, index: nat, edit: Edit) returns (newPoops: array<Poop>)
    requires index < |poops|
    ensures fresh(newPoops)
    ensures newPoops.Length == |poops|
    ensures newPoops[index] == Apply(poops[index], edit)
    ensures forall j | 0 <= j < |poops| && j != index :: newPoops[j] == poops[j]
    ensures newPoops[..] == poops[index := Apply(poops[index], edit)]
  {
    newPoops := new Poop[|poops|](j requires 0 <= j < |poops| => poops[j]);
    newPoops[index] := Apply(newPoops[index], edit);
  }

  /** Replacing one event changes the total by exactly the difference of the
      two events' contributions. */
  lemma TotalAfterReplace(poops: seq<Poop>, index: nat, q: Poop)
    requires index < |poops|
    ensures TotalSquares(poops[index := q]) + Contribution(poops[index])
         == TotalSquares(poops) + Contribution(q)
  {
    var before, after := poops[..index], poops[index + 1..];
    assert poops == before + [poops[index]] + after;
    assert poops[index := q] == before + [q] + after;
    TotalAppend(before + [poops[index]], after);
    TotalAppend(before + [q], after);
    TotalAppend(before, [poops[index]]);
    TotalAppend(before, [q]);
    assert [q][..0] == [] && [poops[index]][..0] == [];
  }

  /** Changing the shape or the cleanliness of an event whose length is
      empty leaves the total, and so the estimate, unchanged. */
  lemma EditOfEmptyPoopKeepsTotal(poops: seq<Poop>, index: nat, edit: Edit)
    requires index < |poops| && poops[index].length.None? && !edit.EditLength?
    ensures TotalSquares(poops[index := Apply(poops[index], edit)]) == TotalSquares(poops)
  {
    TotalAfterReplace(poops, index, Apply(poops[index], edit));
  }

  /** Clearing the length of an event removes exactly its contribution. */
  lemma ClearingLengthRemovesContribution(poops: seq<Poop>, index: nat)
    requires index < |poops|
    ensures TotalSquares(poops[index := Apply(poops[index], EditLength(None))])
         == TotalSquares(poops) - Contribution(poops[index])
  {
    TotalAfterReplace(poops, index, Apply(poops[index], EditLength(None)));
  }
}
