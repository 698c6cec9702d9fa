/**
 * The page state the submit handler, `removeCard`, `updateSqlOutput` and
 * `loadState` work on: the list of processed cards and the text of the SQL
 * output box, which always ends up as the statements of the listed cards.
 */
module CardStore {
  import opened Wrappers
  import opened JsText
  import opened CardForm
  import opened SqlExport

  /** Removing the card that was pushed last gives the list as it was before the push. */
  lemma PushThenRemove(cards: seq<CardRecord>, card: CardRecord)
    ensures Splice(cards + [card], |cards|) == cards
    ensures SqlOutput(Splice(cards + [card], |cards|)) == SqlOutput(cards)
  {
    assert (cards + [card])[..|cards|] == cards;
  }

  /** Removing a listed card leaves one card fewer, and its statement is gone from the output. */
  lemma RemoveListed(cards: seq<CardRecord>, index: nat)
    requires index < |cards|
    ensures |Splice(cards, index)| == |cards| - 1
    ensures Statements(Splice(cards, index)) == Statements(cards)[..index] + Statements(cards)[index + 1..]
  {
    StatementsSplice(cards, index);
  }

  /** `state` and the SQL output box of the page. */
  class Session {
    /** `state.processedCards`, in the order the cards were submitted. */
    var processedCards: seq<CardRecord>
    /** `elements.sqlOutput.value`; the user may edit the box, so it is not always in step. */
    var sqlOutput: string

    /** The output box shows the statements of the processed cards. */
    ghost predicate Valid()
      reads this
    {
      sqlOutput == SqlOutput(processedCards)
    }

    /** The page as it loads: no processed cards and an empty output box. */
    constructor ()
      ensures processedCards == [] && sqlOutput == ""
      ensures Valid()
    {
      processedCards := [];
      sqlOutput := "";
    }

    /** `updateSqlOutput`: the box is rewritten from the list, whatever it held before. */
    method UpdateSqlOutput()
      modifies this
      ensures processedCards == old(processedCards)
      ensures sqlOutput == SqlOutput(processedCards)
      ensures Valid()
    {
      sqlOutput := SqlOutput(processedCards);
    }

    /**
     * The submit handler: the record read from the form is pushed onto the
     * list and the output box is rewritten; when the box was in step, that is
     * the old text with the new statement added on a line of its own.
     */
    method SubmitCard(form: FormFields)
      modifies this
      ensures processedCards == old(processedCards) + [Submit(form)]
      ensures Valid()
      ensures old(processedCards) == [] ==> sqlOutput == GenerateSqlCall(Submit(form))
      ensures old(Valid()) && old(processedCards) != [] ==>
        sqlOutput == old(sqlOutput) + "\n" + GenerateSqlCall(Submit(form))
    {
      var record := Submit(form);
      processedCards := processedCards + [record];
      UpdateSqlOutput();
      SqlOutputAppend(old(processedCards), record);
    }

    /**
     * `removeCard(index)`: `splice(index, 1)` takes out the card at `index`,
     * and an index past the end leaves the list as it is; the box is rewritten.
     */
    method RemoveCard(index: nat)
      modifies this
      ensures processedCards == Splice(old(processedCards), index)
      ensures index < |old(processedCards)| ==>
        processedCards == old(processedCards)[..index] + old(processedCards)[index + 1..]
      ensures index >= |old(processedCards)| ==> processedCards == old(processedCards)
      ensures Valid()
    {
      processedCards := Splice(processedCards, index);
      UpdateSqlOutput();
    }

    /**
     * `loadState`: a saved list, already read back from storage, replaces the
     * current one and the box is rewritten; with nothing saved, nothing changes.
     */
    method LoadState(saved: Option<seq<CardRecord>>)
      modifies this
      ensures saved.Some? ==> processedCards == saved.value && Valid()
      ensures saved.None? ==> processedCards == old(processedCards) && sqlOutput == old(sqlOutput)
    {
      if saved.Some? {
        processedCards := saved.value;
        UpdateSqlOutput();
      }
    }
  }
}
