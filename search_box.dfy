/** The search box: the confirmed id, the text being typed, and the suggestion items,
    with the handlers and the suggestion effect that change them. The debounce timer and
    the previous-value hook are outside the model: their current values are parameters. */
module SearchBox {
  import opened Wrappers
  import opened Elucidate
  import opened Suggestions

  class SearchState {
    var id: string
    var input: string
    var items: seq<string>

    /** The initial state; `placeholder` is the configured placeholder id. */
    constructor (placeholder: string)
      ensures id == placeholder && input == placeholder && items == []
    {
      id, input, items := placeholder, placeholder, [];
    }

    /** The search button is disabled exactly when the typed text is not the confirmed id. */
    function SubmitDisabled(): (disabled: bool)
      reads this
      ensures disabled <==> id != input
    {
      id != input
    }

    /** `onSubmit`: the id passed to the search callback, which is called once when the
        id is non-empty and not at all otherwise. Nothing changes. */
    method OnSubmit() returns (searched: Option<string>)
      ensures searched.None? <==> id == ""
      ensures searched.Some? ==> searched.value == id
    {
      if id == "" {
        return None;
      }
      searched := Some(id);
    }

    /** `handleTyping`: only the typed text changes. */
    method HandleTyping(value: string)
      modifies this`input
      ensures input == value
      ensures SubmitDisabled() <==> value != id
    {
      input := value;
    }

    /** `handleSelected`: re-selecting the confirmed id changes nothing; otherwise the
        selection becomes both the id and the typed text, the items are cleared, and the
        search button is enabled. */
    method HandleSelected(selected: string)
      modifies this`id, this`input, this`items
      ensures selected == old(id) ==>
                id == old(id) && input == old(input) && items == old(items)
      ensures selected != old(id) ==>
                id == selected && input == selected && items == [] && !SubmitDisabled()
    {
      if selected == id {
        return;
      }
      id := selected;
      input := selected;
      items := [];
    }

    /** The suggestion effect for the debounced text `debounced`, `previous` being its value
        at the previous render. Returns the prefix it looks up, if any: none when the
        debounced text did not change (nothing changes) or equals the confirmed id (the
        items are cleared). */
    method SuggestionEffect(debounced: string, previous: Option<string>) returns (lookup: Option<string>)
      modifies this`items
      ensures previous == Some(debounced) ==> lookup.None? && items == old(items)
      ensures previous != Some(debounced) && debounced == id ==> lookup.None? && items == []
      ensures previous != Some(debounced) && debounced != id ==>
                lookup == Some(debounced) && items == old(items)
    {
      if previous == Some(debounced) {
        return None;
      }
      if debounced == id {
        items := [];
        return None;
      }
      lookup := Some(debounced);
    }

    /** The lookup's response arriving: no response clears the items, otherwise they
        become the suggestion list for the found records. */
    method ReceiveSuggestions(found: Option<seq<ExternalAnnotation>>)
      modifies this`items
      ensures found.None? ==> items == []
      ensures found.Some? ==> items == SuggestionsFor(found.value)
      ensures Distinct(items) && |items| <= MaxSuggestions && Sorted(items)
      ensures forall s :: s in items ==> s != ""
    {
      if found.None? {
        items := [];
        return;
      }
      SuggestionsProperties(found.value);
      items := SuggestionsFor(found.value);
    }
  }
}
