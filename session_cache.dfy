/** The in-memory session store: one prompt history per session id. */
module Services {
  import opened Types

  /** The value `GetMsg` reads for a key: the stored history, or the empty
      (nil) slice for a key never set. */
  function Lookup(sessions: map<string, seq<Message>>, id: string): seq<Message> {
    if id in sessions then sessions[id] else []
  }

  class SessionCache {
    var sessions: map<string, seq<Message>>

    /** `NewSessionCache`: an empty store. */
    constructor ()
      ensures sessions == map[]
    {
      sessions := map[];
    }

    /** Reads the history of one session without changing the store. */
    method GetMsg(id: string) returns (msgs: seq<Message>)
      ensures id in sessions ==> msgs == sessions[id]
      ensures id !in sessions ==> msgs == []
    {
      msgs := Lookup(sessions, id);
    }

    /** Replaces the history of one session; every other key keeps its value. */
    method SetMsg(id: string, msgs: seq<Message>)
      modifies this
      ensures sessions == old(sessions)[id := msgs]
      ensures forall k :: k != id ==> Lookup(sessions, k) == Lookup(old(sessions), k)
      ensures Lookup(sessions, id) == msgs
    {
      sessions := sessions[id := msgs];
    }
  }

  /** Set-then-get returns the value just stored, a second set on the same key
      wins over the first, and a set on another key is invisible. */
  method StoreLaws(c: SessionCache, k: string, other: string, v: seq<Message>, w: seq<Message>)
    requires k != other
    modifies c
    ensures Lookup(c.sessions, k) == w
    ensures Lookup(c.sessions, other) == Lookup(old(c.sessions), other)
  {
    c.SetMsg(k, v);
    var got := c.GetMsg(k);
    assert got == v;
    c.SetMsg(k, w);
    got := c.GetMsg(k);
    assert got == w;
  }
}
