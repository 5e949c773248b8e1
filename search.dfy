/**
 * `src/components/search.rs`: the search box. In Input mode it collects
 * typed characters into a query; Enter submits and switches to Nav mode,
 * where every key is left to others. The query buffer (`tui_input::Input`)
 * is modelled by its value, and typing appends at its end.
 */
module SearchComponent {
  /** The search box's own `InputMode`: Input by default. */
  datatype InputMode = Nav | Input

  /** The keys `event` tells apart (`crate::events::Key`); every other key is `OtherKey`. */
  datatype Key = Enter | Esc | Char(c: char) | OtherKey

  /** Whether the key was handled here (`EventState`). */
  datatype EventState = Consumed | NotConsumed

  /** What one key does: the answer, and the mode and query afterwards. */
  datatype Response = Response(answer: EventState, mode: InputMode, query: string)

  /** The query after `search`: an empty query is left alone, any other is reset; empty either way. */
  function Submitted(query: string): (r: string)
    ensures r == []
  {
    if query == [] then query else []
  }

  /** The effect of `event` on a search box in `mode` holding `query`. */
  function Respond(mode: InputMode, query: string, key: Key): Response {
    if mode == Nav then Response(NotConsumed, mode, query)
    else if key == Enter then Response(Consumed, Nav, Submitted(query))
    else if key == Char('/') then Response(Consumed, Input, [])
    else if key == Esc then Response(Consumed, mode, [])
    else if key.Char? then Response(Consumed, mode, query + [key.c])
    else Response(NotConsumed, mode, query)
  }

  /** In Nav mode every key is left unhandled and nothing changes. */
  lemma NavModeIgnoresKeys(query: string, key: Key)
    ensures Respond(Nav, query, key) == Response(NotConsumed, Nav, query)
  {
  }

  /** In Input mode: Enter submits, '/' and Esc clear, any other character is appended, anything else is ignored. */
  lemma InputModeKeys(query: string, c: char)
    ensures Respond(Input, query, Enter) == Response(Consumed, Nav, [])
    ensures Respond(Input, query, Char('/')) == Response(Consumed, Input, [])
    ensures Respond(Input, query, Esc) == Response(Consumed, Input, [])
    ensures c != '/' ==> Respond(Input, query, Char(c)) == Response(Consumed, Input, query + [c])
    ensures Respond(Input, query, OtherKey) == Response(NotConsumed, Input, query)
  {
  }

  /** A key is consumed exactly when the box is in Input mode and the key is Enter, Esc or a character. */
  lemma ConsumedIff(mode: InputMode, query: string, key: Key)
    ensures Respond(mode, query, key).answer == Consumed <==> mode == Input && key != OtherKey
  {
  }

  /** '/' is never typed into the query: a query without '/' keeps none after any key. */
  lemma SlashNeverTyped(mode: InputMode, query: string, key: Key)
    requires '/' !in query
    ensures '/' !in Respond(mode, query, key).query
  {
  }

  /** Once in Nav mode the box stays there: only Enter changes the mode, and only to Nav. */
  lemma ModeOnlyMovesToNav(mode: InputMode, query: string, key: Key)
    ensures Respond(mode, query, key).mode == (if mode == Input && key == Enter then Nav else mode)
  {
  }

  class Search {
    var query: string
    var mode: InputMode

    /** `Search::new`: an empty query in Input mode. */
    constructor ()
      ensures query == [] && mode == Input
    {
      query := [];
      mode := Input;
    }

    /** `add_to_query`: the typed character goes at the end of the query. */
    method AddToQuery(c: char)
      modifies this`query
      ensures query == old(query) + [c]
    {
      query := query + [c];
    }

    /** `search`: nothing to do for an empty query, otherwise reset it. */
    method Search()
      modifies this`query
      ensures query == Submitted(old(query))
    {
      if query == [] {
        return;
      }
      query := [];
    }

    /** `event`: handle one key as `Respond` describes. */
    method Event(key: Key) returns (r: EventState)
      modifies this`query, this`mode
      ensures Response(r, mode, query) == Respond(old(mode), old(query), key)
    {
      if mode == Nav {
        return NotConsumed;
      }
      if key == Enter {
        Search();
        mode := Nav;
        return Consumed;
      } else if key == Char('/') {
        query := [];
        mode := Input;
        return Consumed;
      } else if key == Esc {
        query := [];
        return Consumed;
      } else if key.Char? {
        AddToQuery(key.c);
        return Consumed;
      }
      return NotConsumed;
    }
  }
}
