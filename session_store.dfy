/** `get_session_history`: the per-session store of chat histories that the
    message-history wrapper asks for the history of a session id. The store
    lives in the UI session's state; it is created on first use and emptied
    by "Clear History". */
module SessionStore {

  datatype Option<T> = None | Some(value: T)

  /** One turn kept in a chat history. */
  datatype Message = Message(role: string, content: string)

  /** A `ChatMessageHistory`: an object holding the turns of one session. */
  class ChatMessageHistory {
    var messages: seq<Message>

    constructor ()
      ensures messages == []
    {
      messages := [];
    }
  }

  /** The store's entries; an absent store has none. */
  function Entries<H>(store: Option<map<string, H>>): map<string, H>
  {
    if store.Some? then store.value else map[]
  }

  /** The store after a lookup of `sessionId`, and the history the lookup
      returns, where `created` is the history a miss would insert. A hit
      returns the stored history and changes nothing; a miss inserts
      `created` under `sessionId` and touches no other entry. */
  function GetOrCreate<H>(store: Option<map<string, H>>, sessionId: string, created: H): (r: (map<string, H>, H))
    ensures sessionId in r.0 && r.0[sessionId] == r.1
    ensures r.0.Keys == Entries(store).Keys + {sessionId}
    ensures forall k :: k in Entries(store) ==> r.0[k] == Entries(store)[k]
    ensures sessionId in Entries(store) ==> r.0 == Entries(store)
    ensures sessionId !in Entries(store) ==> r.1 == created && |r.0| == |Entries(store)| + 1
  {
    var entries := Entries(store);
    if sessionId in entries then (entries, entries[sessionId])
    else (entries[sessionId := created], created)
  }

  /** A second lookup of the same id returns the same history and leaves the
      store as the first one left it, whatever it would have created. */
  lemma GetOrCreateRepeat<H>(store: Option<map<string, H>>, sessionId: string, created: H, created': H)
    ensures var (entries, history) := GetOrCreate(store, sessionId, created);
      GetOrCreate(Some(entries), sessionId, created') == (entries, history)
  {
  }

  /** Lookups of different ids do not disturb each other: each returns the
      history it would have returned alone, whichever runs first. */
  lemma GetOrCreateIndependent<H>(store: Option<map<string, H>>, a: string, ca: H, b: string, cb: H)
    requires a != b
    ensures var (afterA, ha) := GetOrCreate(store, a, ca);
      var (afterAB, hb) := GetOrCreate(Some(afterA), b, cb);
      var (afterB, hb') := GetOrCreate(store, b, cb);
      var (afterBA, ha') := GetOrCreate(Some(afterB), a, ca);
      ha == ha' && hb == hb' && afterAB == afterBA
  {
  }

  /** The slice of the UI session's state that holds the store. */
  class SessionState {
    var store: Option<map<string, ChatMessageHistory>>

    /** A new UI session has no store yet. */
    constructor ()
      ensures store == None
    {
      store := None;
    }

    /** `get_session_history(session_id)`: creates the store if there is none,
        inserts a fresh, empty history on a miss, and returns the history
        stored under `sessionId`. */
    method GetSessionHistory(sessionId: string) returns (h: ChatMessageHistory)
      modifies this
      ensures store == Some(GetOrCreate(old(store), sessionId, h).0)
      ensures h == GetOrCreate(old(store), sessionId, h).1
      ensures sessionId in Entries(old(store)) ==> h == Entries(old(store))[sessionId]
      ensures sessionId !in Entries(old(store)) ==> fresh(h) && h.messages == []
      ensures old(store).Some? && sessionId in old(store).value ==> store == old(store)
    {
      if store.None? {
        store := Some(map[]);
      }
      if sessionId !in store.value {
        var created := new ChatMessageHistory();
        store := Some(store.value[sessionId := created]);
      }
      h := store.value[sessionId];
    }

    /** The store half of "Clear History": every session starts over. */
    method ClearHistory()
      modifies this
      ensures store == Some(map[])
    {
      store := Some(map[]);
    }
  }
}
